/** The scenarios of the file DAO's tests, run against the store model on
    symbolic paths: each scenario method builds a fresh store, performs the
    calls of one test and promises the outcomes the test asserts. */
module FileDaoScenarios {
  import opened Common
  import opened Paths
  import opened Namespace
  import opened FileStores

  /** A fresh store after createFileStart of `p`. */
  method StartAlone(p: string) returns (s: FileStore, id: FileId)
    requires ValidPath(p)
    ensures fresh(s) && s.Valid() && s.IdsFresh() && IdsUnique(s.entries)
    ensures id == 0 && s.entries == CreatedAlone(p, FileRef(0, None), 1)
    ensures Alone(s.entries, p, FileRef(0, None))
    ensures s.dependencies == map[] && s.files == map[]
  {
    s := new FileStore();
    id := StartFirst(s, p);
    CreatedIsAlone(p, FileRef(0, None), 1);
  }

  /** createFileStart of `p` in an empty store. */
  method StartFirst(s: FileStore, p: string) returns (id: FileId)
    requires ValidPath(p) && s.Valid() && s.IdsFresh() && s.entries == map[] && s.nextId == 0
    modifies s`entries, s`nextId
    ensures s.Valid() && s.IdsFresh() && IdsUnique(s.entries)
    ensures id == 0 && s.entries == CreatedAlone(p, FileRef(0, None), 1)
  {
    CreateAlone(p, FileRef(0, None), 1);
    assert CreateEntry(s.entries, p, FileRef(s.nextId, None), s.nextId + 1) == CreateEntry(map[], p, FileRef(0, None), 1);
    var started := s.CreateFileStart(p);
    id := started.value;
  }

  /** createFileComplete, createFileCompleteUndo, createFileComplete. */
  method CompleteUndoComplete(s: FileStore, p: string, id: FileId, info: FileInfo)
    returns (complete: Result<FSObject, StoreError>, undoneType: ObjectType)
    requires p in s.entries && s.entries[p] == FileRef(id, None) && IdsUnique(s.entries)
    modifies s`files
    ensures s.files == old(s.files)[id := info]
    ensures complete == Ok(FSObject(id, p, File))
    ensures undoneType == IngestingFile
  {
    complete := s.CreateFileComplete(id, info);
    s.CreateFileCompleteUndo(id);
    undoneType := s.TypeOf(s.entries[p]);
    complete := s.CreateFileComplete(id, info);
  }

  /** deleteFileStart and deleteFileComplete of a file nothing depends on. */
  method DeleteFile(s: FileStore, p: string, id: FileId, flightId: string)
    returns (deleteStart: Result<bool, StoreError>, deleteComplete: Result<bool, StoreError>)
    requires s.Valid() && p in s.entries && s.entries[p] == FileRef(id, None) && IdsUnique(s.entries)
    requires !s.HasDependency(id)
    modifies s`entries, s`files, s`deleting
    ensures s.Valid()
    ensures deleteStart == Ok(true) && deleteComplete == Ok(true)
    ensures s.entries == RemoveEntry(old(s.entries), p)
  {
    deleteStart := s.DeleteFileStart(id, flightId);
    deleteComplete := s.DeleteFileComplete(id, flightId);
  }

  /** fileStateTest and deleteOnEmptyTest: a file is created below fresh
      directories, completed, uncompleted, completed again; undoing the
      creation of its directory is refused; the delete is started, its
      completion is refused for another flight and for the directory's id,
      and then the file is deleted, which removes every directory above it. */
  method FileLifecycle(p: string, flightId: string, otherFlightId: string, info: FileInfo)
    returns (id: FileId, complete: Result<FSObject, StoreError>, undoneType: ObjectType,
             dirUndo: Result<bool, StoreError>, deleteStart: Result<bool, StoreError>,
             otherComplete: Result<bool, StoreError>, dirComplete: Result<bool, StoreError>,
             deleteComplete: Result<bool, StoreError>, left: Entries)
    requires ValidPath(p) && Parent(p) != "" && otherFlightId != flightId
    ensures complete == Ok(FSObject(id, p, File))
    ensures undoneType == IngestingFile
    ensures dirUndo == Err(FileSystemCorrupt(BadObjectTypeMessage))
    ensures deleteStart == Ok(true)
    ensures otherComplete == Err(InvalidFileSystemObjectType(OtherDeleterMessage))
    ensures dirComplete == Err(InvalidFileSystemObjectType(DirectoryDeleteMessage))
    ensures deleteComplete == Ok(true)
    ensures left == map[]
  {
    var s;
    s, id := StartAlone(p);
    complete, undoneType := CompleteUndoComplete(s, p, id, info);
    AncestorsAreChain(p);
    var ancestors := Ancestors(p);
    assert ancestors[|ancestors| - 1] in ancestors;
    dirUndo := s.CreateFileStartUndo(Parent(p), flightId);
    assert !s.HasDependency(id);
    deleteStart, otherComplete, dirComplete, deleteComplete := DeleteWithRefusals(s, p, Parent(p), id, flightId, otherFlightId);
    CreateThenRemoveAlone(p, FileRef(0, None), 1);
    left := s.entries;
  }

  /** The delete of deleteOnEmptyTest: deleteFileStart, the two refused
      completions, and the completion that removes the file. */
  method DeleteWithRefusals(s: FileStore, p: string, dir: string, id: FileId, flightId: string, otherFlightId: string)
    returns (deleteStart: Result<bool, StoreError>, otherComplete: Result<bool, StoreError>,
             dirComplete: Result<bool, StoreError>, deleteComplete: Result<bool, StoreError>)
    requires s.Valid() && IdsUnique(s.entries) && !s.HasDependency(id)
    requires p in s.entries && s.entries[p] == FileRef(id, None)
    requires dir in s.entries && s.entries[dir].DirEntry? && otherFlightId != flightId
    modifies s`entries, s`files, s`deleting
    ensures deleteStart == Ok(true) && deleteComplete == Ok(true)
    ensures otherComplete == Err(InvalidFileSystemObjectType(OtherDeleterMessage))
    ensures dirComplete == Err(InvalidFileSystemObjectType(DirectoryDeleteMessage))
    ensures s.entries == RemoveEntry(old(s.entries), p)
  {
    deleteStart := s.DeleteFileStart(id, flightId);
    otherComplete, dirComplete := RefusedCompletes(s, p, dir, id, flightId, otherFlightId);
    deleteComplete := s.DeleteFileComplete(id, flightId);
  }

  /** The two refused deleteFileComplete calls of deleteOnEmptyTest: one by
      another flight, one with the id of directory `dir`. Neither changes
      the store. */
  method RefusedCompletes(s: FileStore, p: string, dir: string, id: FileId, flightId: string, otherFlightId: string)
    returns (otherComplete: Result<bool, StoreError>, dirComplete: Result<bool, StoreError>)
    requires s.Valid() && IdsUnique(s.entries)
    requires p in s.entries && s.entries[p] == FileRef(id, None)
    requires dir in s.entries && s.entries[dir].DirEntry?
    requires id in s.deleting && s.deleting[id] == flightId && otherFlightId != flightId
    modifies s`entries, s`files, s`deleting
    ensures otherComplete == Err(InvalidFileSystemObjectType(OtherDeleterMessage))
    ensures dirComplete == Err(InvalidFileSystemObjectType(DirectoryDeleteMessage))
    ensures s.entries == old(s.entries) && s.files == old(s.files) && s.deleting == old(s.deleting)
  {
    otherComplete := s.DeleteFileComplete(id, otherFlightId);
    var dirId := s.entries[dir].id;
    assert forall q :: q in s.entries && s.entries[q].id == dirId ==> q == dir;
    dirComplete := s.DeleteFileComplete(dirId, flightId);
  }

  /** The references to file `id` are `n` from dataset `ds` and none from
      any other dataset. */
  ghost predicate DependsOnly(s: FileStore, ds: string, id: FileId, n: nat)
    reads s`dependencies
  {
    && (if (ds, id) in s.dependencies then s.dependencies[(ds, id)] else 0) == n
    && forall k :: k in s.dependencies && k.1 == id && k != (ds, id) ==> s.dependencies[k] == 0
  }

  /** With only dataset `ds` referring to `id`, the file has a dependency
      exactly when the count is positive. */
  lemma DependsOnlyCount(s: FileStore, ds: string, id: FileId, n: nat)
    requires DependsOnly(s, ds, id, n)
    ensures s.HasDependency(id) <==> n > 0
  {
    if s.HasDependency(id) {
      var k :| k in s.dependencies && k.1 == id && s.dependencies[k] > 0;
      assert k == (ds, id);
    }
    if n > 0 {
      assert (ds, id) in s.dependencies;
    }
  }

  /** storeDatasetFileDependency from `ds`: one reference more. */
  method AddReference(s: FileStore, ds: string, id: FileId, ghost n: nat)
    requires DependsOnly(s, ds, id, n)
    modifies s`dependencies
    ensures DependsOnly(s, ds, id, n + 1)
  {
    s.StoreDatasetFileDependency(ds, id);
  }

  /** removeDatasetFileDependency from `ds`: one reference fewer. */
  method DropReference(s: FileStore, ds: string, id: FileId, ghost n: nat)
    requires DependsOnly(s, ds, id, n + 1)
    modifies s`dependencies
    ensures DependsOnly(s, ds, id, n)
  {
    s.RemoveDatasetFileDependency(ds, id);
  }

  /** deleteFileStart of the file at `p` while `ds` holds `n` references. */
  method StartDelete(s: FileStore, p: string, id: FileId, ds: string, ghost n: nat, flightId: string)
    returns (r: Result<bool, StoreError>)
    requires p in s.entries && s.entries[p] == FileRef(id, None) && DependsOnly(s, ds, id, n)
    modifies s`deleting
    ensures n > 0 ==> r == Err(FileSystemObjectDependency(DatasetDependencyMessage)) && s.deleting == old(s.deleting)
    ensures n == 0 ==> r == Ok(true) && s.deleting == old(s.deleting)[id := flightId]
  {
    DependsOnlyCount(s, ds, id, n);
    assert s.entries[p].id == id;
    r := s.DeleteFileStart(id, flightId);
    assert p in s.entries && s.entries[p].id == id && s.entries[p].FileRef?;
    assert s.HasDependency(id) <==> n > 0;
  }

  /** Three references from `ds`, then two removed: the file is still
      referenced and deleteFileStart is refused both times. */
  method DependenciesBlockDelete(s: FileStore, p: string, id: FileId, ds: string, flightId: string)
    returns (blocked1: Result<bool, StoreError>, blocked2: Result<bool, StoreError>)
    requires p in s.entries && s.entries[p] == FileRef(id, None) && !s.HasDependency(id)
    modifies s`dependencies, s`deleting
    ensures DependsOnly(s, ds, id, 1) && s.deleting == old(s.deleting)
    ensures blocked1 == Err(FileSystemObjectDependency(DatasetDependencyMessage))
    ensures blocked2 == Err(FileSystemObjectDependency(DatasetDependencyMessage))
  {
    assert DependsOnly(s, ds, id, 0);
    AddReference(s, ds, id, 0);
    AddReference(s, ds, id, 1);
    AddReference(s, ds, id, 2);
    blocked1 := StartDelete(s, p, id, ds, 3, flightId);
    DropReference(s, ds, id, 2);
    DropReference(s, ds, id, 1);
    blocked2 := StartDelete(s, p, id, ds, 1, flightId);
  }

  /** The last reference removed, the delete starts; a reference added
      before it completes makes deleteFileComplete fail as corrupt; once
      that is removed the delete completes. */
  method DeleteAfterDependencies(s: FileStore, p: string, id: FileId, ds: string, flightId: string)
    returns (started: Result<bool, StoreError>, blockedComplete: Result<bool, StoreError>,
             completed: Result<bool, StoreError>)
    requires s.Valid() && p in s.entries && s.entries[p] == FileRef(id, None) && IdsUnique(s.entries)
    requires DependsOnly(s, ds, id, 1)
    modifies s`dependencies, s`deleting, s`entries, s`files
    ensures s.Valid() && !s.HasDependency(id)
    ensures started == Ok(true)
    ensures blockedComplete == Err(FileSystemCorrupt(ReferencesMessage))
    ensures completed == Ok(true)
    ensures s.entries == RemoveEntry(old(s.entries), p)
  {
    DropReference(s, ds, id, 0);
    started := StartDelete(s, p, id, ds, 0, flightId);
    AddReference(s, ds, id, 0);
    DependsOnlyCount(s, ds, id, 1);
    assert s.entries[p].id == id;
    blockedComplete := s.DeleteFileComplete(id, flightId);
    DropReference(s, ds, id, 0);
    DependsOnlyCount(s, ds, id, 0);
    completed := s.DeleteFileComplete(id, flightId);
  }

  /** createFileStart of `b` where its creation succeeds. */
  method StartAnother(s: FileStore, b: string) returns (idB: FileId)
    requires ValidPath(b) && s.Valid() && s.IdsFresh()
    requires CreateEntry(s.entries, b, FileRef(s.nextId, None), s.nextId + 1).Ok?
    modifies s`entries, s`nextId
    ensures s.Valid() && s.IdsFresh() && idB == old(s.nextId)
    ensures s.entries == CreateEntry(old(s.entries), b, FileRef(idB, None), idB + 1).value.entries
  {
    var startedB := s.CreateFileStart(b);
    idB := startedB.value;
  }

  /** Two files started in the same directory below fresh directories. */
  method StartSiblings(a: string, b: string)
    returns (s: FileStore, idA: FileId, idB: FileId)
    requires ValidPath(a) && ValidPath(b) && a != b && Parent(a) == Parent(b)
    ensures fresh(s) && s.Valid() && IdsUnique(s.entries) && s.dependencies == map[]
    ensures Siblings(s.entries, a, b, FileRef(idA, None), FileRef(idB, None))
  {
    s, idA := StartAlone(a);
    ghost var e, n := s.entries, s.nextId;
    CreateSibling(e, a, b, FileRef(idA, None), FileRef(n, None), n + 1);
    idB := StartAnother(s, b);
    assert s.entries == CreateEntry(e, b, FileRef(idB, None), idB + 1).value.entries;
    CreateSibling(e, a, b, FileRef(idA, None), FileRef(idB, None), idB + 1);
  }

  /** createFileComplete of two started files. */
  method CompleteBoth(s: FileStore, a: string, b: string, idA: FileId, idB: FileId, info: FileInfo)
    returns (completeA: Result<FSObject, StoreError>, completeB: Result<FSObject, StoreError>)
    requires a in s.entries && s.entries[a] == FileRef(idA, None)
    requires b in s.entries && s.entries[b] == FileRef(idB, None)
    requires IdsUnique(s.entries)
    modifies s`files
    ensures completeA.Ok? && completeA.value.path == a && completeA.value.objectId == idA
    ensures completeB == Ok(FSObject(idB, b, File))
  {
    completeA := s.CreateFileComplete(idA, info);
    completeB := s.CreateFileComplete(idB, info);
    assert s.entries[completeB.value.path].id == idB == s.entries[b].id;
  }

  /** Deleting file A of two files in one directory removes A alone. */
  method DeleteFirstSibling(s: FileStore, a: string, b: string, idA: FileId, idB: FileId, flightId: string)
    returns (deleteA: Result<bool, StoreError>)
    requires ValidPath(a) && ValidPath(b) && a != b && Parent(a) == Parent(b)
    requires s.Valid() && IdsUnique(s.entries) && s.dependencies == map[]
    requires Siblings(s.entries, a, b, FileRef(idA, None), FileRef(idB, None))
    modifies s`entries, s`files, s`deleting
    ensures s.Valid() && s.entries == old(s.entries) - {a}
    ensures Alone(s.entries, b, FileRef(idB, None))
    ensures deleteA == Ok(true)
  {
    assert !s.HasDependency(idA);
    var deleteComplete;
    deleteA, deleteComplete := DeleteFile(s, a, idA, flightId);
    RemoveSibling(old(s.entries), a, b, FileRef(idA, None), FileRef(idB, None));
  }

  /** dontDeleteOnNotEmptyTest: files A and B in the same directory below
      fresh directories; deleting A leaves the directories and B; B cannot
      be deleted while a dataset refers to it; deleting B at last removes
      every directory. */
  method DontDeleteOnNotEmpty(a: string, b: string, ds: string, flightId: string, info: FileInfo)
    returns (deleteA: Result<bool, StoreError>, afterA: Entries,
             blocked1: Result<bool, StoreError>, blocked2: Result<bool, StoreError>,
             started: Result<bool, StoreError>, blockedComplete: Result<bool, StoreError>,
             completed: Result<bool, StoreError>, left: Entries)
    requires ValidPath(a) && ValidPath(b) && a != b && Parent(a) == Parent(b)
    ensures deleteA == Ok(true)
    ensures forall q :: q in afterA <==> q in PathChain(b)
    ensures blocked1 == Err(FileSystemObjectDependency(DatasetDependencyMessage))
    ensures blocked2 == Err(FileSystemObjectDependency(DatasetDependencyMessage))
    ensures started == Ok(true) && completed == Ok(true)
    ensures blockedComplete == Err(FileSystemCorrupt(ReferencesMessage))
    ensures left == map[]
  {
    var s, idA, idB := StartSiblings(a, b);
    var completeA, completeB := CompleteBoth(s, a, b, idA, idB, info);
    deleteA := DeleteFirstSibling(s, a, b, idA, idB, flightId);
    afterA := s.entries;
    assert !s.HasDependency(idB);
    blocked1, blocked2 := DependenciesBlockDelete(s, b, idB, ds, flightId);
    started, blockedComplete, completed := DeleteAfterDependencies(s, b, idB, ds, flightId);
    RemoveOnlyFile(afterA, b, FileRef(idB, None));
    left := s.entries;
  }
  /** A fresh store holding the complete file `p` below fresh directories. */
  method CompleteAlone(p: string, info: FileInfo) returns (s: FileStore)
    requires ValidPath(p)
    ensures fresh(s) && IdsUnique(s.entries) && Alone(s.entries, p, FileRef(0, None))
    ensures s.entries == CreatedAlone(p, FileRef(0, None), 1) && s.files == map[0 := info]
  {
    var id;
    s, id := StartAlone(p);
    var complete := s.CreateFileComplete(id, info);
  }

  /** The listing and the type of each path of `c`, one retrieveWithContentsByPath per path. */
  method ListDown(s: FileStore, c: seq<string>) returns (listings: seq<Result<set<string>, StoreError>>, types: seq<ObjectType>)
    requires forall j :: 0 <= j < |c| ==> c[j] != "/" && c[j] in s.entries
    ensures |listings| == |types| == |c|
    ensures forall j :: 0 <= j < |c| ==> listings[j] == Ok(Children(s.entries, c[j]))
    ensures forall j :: 0 <= j < |c| ==> types[j] == s.TypeOf(s.entries[c[j]])
  {
    listings, types := [], [];
    var k := 0;
    while k < |c|
      invariant k <= |c| && |listings| == |types| == k
      invariant forall j :: 0 <= j < k ==> listings[j] == Ok(Children(s.entries, c[j]))
      invariant forall j :: 0 <= j < k ==> types[j] == s.TypeOf(s.entries[c[j]])
    {
      listings := listings + [s.ListContents(c[k])];
      types := types + [s.TypeOf(s.entries[c[k]])];
      k := k + 1;
    }
  }

  /** pathLookupTest: a complete file is found alike by its id and by its
      path; a path that was never made is not found; listing from the root
      down finds one child at each level, each a directory but the file at
      the bottom. */
  method PathLookup(p: string, q: string, info: FileInfo)
    returns (byId: Option<FSObject>, byPath: Result<FSObject, StoreError>, missing: Result<FSObject, StoreError>,
             rootListing: Result<set<string>, StoreError>, listings: seq<Result<set<string>, StoreError>>,
             types: seq<ObjectType>)
    requires ValidPath(p) && q !in PathChain(p)
    ensures byPath == Ok(FSObject(0, p, File)) && byId == Some(byPath.value)
    ensures missing == Err(ObjectNotFound(NotFoundMessage))
    ensures rootListing == Ok({PathChain(p)[0]})
    ensures |listings| == |types| == |PathChain(p)|
    ensures forall k :: 0 <= k < |PathChain(p)| - 1 ==> listings[k] == Ok({PathChain(p)[k + 1]}) && types[k] == Directory
    ensures listings[|PathChain(p)| - 1] == Ok({}) && types[|PathChain(p)| - 1] == File
  {
    var s := CompleteAlone(p, info);
    byId, byPath, missing := FindAlone(s, p, q, info);
    rootListing, listings, types := ListAlone(s, p, info);
  }

  /** The lookups of pathLookupTest in the store of one complete file. */
  method FindAlone(s: FileStore, p: string, q: string, info: FileInfo)
    returns (byId: Option<FSObject>, byPath: Result<FSObject, StoreError>, missing: Result<FSObject, StoreError>)
    requires ValidPath(p) && q !in PathChain(p) && IdsUnique(s.entries)
    requires s.entries == CreatedAlone(p, FileRef(0, None), 1) && s.files == map[0 := info]
    ensures byPath == Ok(FSObject(0, p, File)) && byId == Some(byPath.value)
    ensures missing == Err(ObjectNotFound(NotFoundMessage))
  {
    CreateAlone(p, FileRef(0, None), 1);
    byId := s.RetrieveById(0);
    byPath := s.RetrieveByPath(p);
    missing := s.RetrieveByPath(q);
  }

  /** The listings of pathLookupTest in the store of one complete file. */
  method ListAlone(s: FileStore, p: string, info: FileInfo)
    returns (rootListing: Result<set<string>, StoreError>, listings: seq<Result<set<string>, StoreError>>,
             types: seq<ObjectType>)
    requires ValidPath(p) && Alone(s.entries, p, FileRef(0, None)) && 0 in s.files
    ensures rootListing == Ok({PathChain(p)[0]})
    ensures |listings| == |types| == |PathChain(p)|
    ensures forall k :: 0 <= k < |PathChain(p)| - 1 ==> listings[k] == Ok({PathChain(p)[k + 1]}) && types[k] == Directory
    ensures listings[|PathChain(p)| - 1] == Ok({}) && types[|PathChain(p)| - 1] == File
  {
    var c := PathChain(p);
    ListingAlone(s.entries, p, FileRef(0, None));
    rootListing := s.ListContents("/");
    listings, types := ListDown(s, c);
  }

  /** testStudyDelete, for one file: the complete file is found by its path
      until deleteFilesFromDataset, and then the store is empty and the path
      is not found. */
  method StudyDelete(p: string, info: FileInfo)
    returns (found: Result<FSObject, StoreError>, gone: Result<FSObject, StoreError>, left: Entries)
    requires ValidPath(p)
    ensures found == Ok(FSObject(0, p, File))
    ensures gone == Err(ObjectNotFound(NotFoundMessage)) && left == map[]
  {
    var s := CompleteAlone(p, info);
    found := s.RetrieveByPath(p);
    s.DeleteAllFiles();
    gone := s.RetrieveByPath(p);
    left := s.entries;
  }
}
