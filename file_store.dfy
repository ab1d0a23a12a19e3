/** The file-system store of one dataset as the DAO tests drive it: the
    directory entries (module Namespace), the file records of completed
    files, the dataset dependencies of each file, and the delete marks of
    files being deleted. The DAO's own code is not part of this model; the
    store's behaviour is the one its tests assert. */
module FileStores {
  import opened Common
  import opened Paths
  import opened Namespace

  /** FSObjectType: a directory, a file whose data is still being copied, or
      a complete file. */
  datatype ObjectType = Directory | IngestingFile | File

  /** What a lookup returns (FSObjectBase): the object's id, path and type. */
  datatype FSObject = FSObject(objectId: FileId, path: string, objectType: ObjectType)

  /** The exceptions of the store, with the part of their message the tests
      check. */
  datatype StoreError =
    | ObjectNotFound(message: string)                 // FileSystemObjectNotFoundException
    | FileSystemCorrupt(message: string)               // FileSystemCorruptException
    | InvalidFileSystemObjectType(message: string)     // InvalidFileSystemObjectTypeException
    | FileSystemObjectDependency(message: string)      // FileSystemObjectDependencyException
    | CreateFailed(error: NamespaceError)

  const NotFoundMessage := "Object not found"
  const BadObjectTypeMessage := "bad file object type"
  const DirectoryDeleteMessage := "attempt to delete a directory"
  const OtherDeleterMessage := "being deleted by someone else"
  const ReferencesMessage := "any references"
  const DatasetDependencyMessage := "dataset"

  class FileStore {
    var entries: Entries
    var files: map<FileId, FileInfo>
    var dependencies: map<(string, FileId), nat>
    var deleting: map<FileId, string>
    var nextId: FileId

    ghost predicate Valid()
      reads this`entries
    {
      Tree(entries)
    }

    /** Ids drawn by the store itself are fresh. */
    ghost predicate IdsFresh()
      reads this`entries, this`nextId
    {
      IdsUnique(entries) && IdsBelow(entries, nextId)
    }

    /** `id` can be given to a new entry: no entry has it, and it was drawn
        from the counter. */
    ghost predicate UnusedId(id: FileId)
      reads this`entries, this`nextId
    {
      IdsFresh() && id < nextId && forall q :: q in entries ==> entries[q].id != id
    }

    constructor ()
      ensures Valid() && IdsFresh()
      ensures entries == map[] && files == map[] && dependencies == map[] && deleting == map[] && nextId == 0
    {
      entries := map[];
      files := map[];
      dependencies := map[];
      deleting := map[];
      nextId := 0;
    }

    /** The type of an entry: a file reference is a complete file once its
        file record exists. */
    function TypeOf(e: Entry): (t: ObjectType)
      reads this`files
      ensures t == Directory <==> e.DirEntry?
      ensures t == File <==> e.FileRef? && e.id in files
    {
      if e.DirEntry? then Directory else if e.id in files then File else IngestingFile
    }

    function ObjectAt(p: string): FSObject
      reads this`entries, this`files
      requires p in entries
    {
      FSObject(entries[p].id, p, TypeOf(entries[p]))
    }

    /** lookupDirectoryEntryByPath / retrieveByPathNoThrow. */
    function LookupByPath(p: string): (r: Option<Entry>)
      reads this`entries
      ensures r.Some? <==> p in entries
      ensures r.Some? ==> r.value == entries[p]
    {
      if p in entries then Some(entries[p]) else None
    }

    /** retrieveByPath: a missing path raises not-found. */
    function RetrieveByPath(p: string): (r: Result<FSObject, StoreError>)
      reads this`entries, this`files
      ensures r.Err? <==> p !in entries
      ensures r.Err? ==> r.error == ObjectNotFound(NotFoundMessage)
      ensures r.Ok? ==> r.value.path == p && r.value.objectId == entries[p].id && r.value.objectType == TypeOf(entries[p])
    {
      if p in entries then Ok(ObjectAt(p)) else Err(ObjectNotFound(NotFoundMessage))
    }

    /** The path of the entry with id `id`, if one has it. */
    method FindById(id: FileId) returns (r: Option<string>)
      ensures r.Some? ==> r.value in entries && entries[r.value].id == id
      ensures r.None? <==> forall q :: q in entries ==> entries[q].id != id
      ensures IdsUnique(entries) ==> forall q :: q in entries && entries[q].id == id ==> r == Some(q)
    {
      if exists q :: q in entries && entries[q].id == id {
        var q :| q in entries && entries[q].id == id;
        r := Some(q);
      } else {
        r := None;
      }
    }

    /** retrieveById / retrieveByIdNoThrow: with ids unique, looking an object
        up by its id finds what looking it up by its path finds. */
    method RetrieveById(id: FileId) returns (r: Option<FSObject>)
      ensures r.None? <==> forall q :: q in entries ==> entries[q].id != id
      ensures r.Some? ==> r.value.path in entries && r.value == ObjectAt(r.value.path) && r.value.objectId == id
      ensures IdsUnique(entries) ==> forall q :: q in entries && entries[q].id == id ==> r == Some(ObjectAt(q))
    {
      var p := FindById(id);
      r := if p.Some? then Some(ObjectAt(p.value)) else None;
    }

    /** lookupFile: the file record, present once the file is complete. */
    function LookupFile(id: FileId): (r: Option<FileInfo>)
      reads this`files
      ensures r.Some? <==> id in files
    {
      if id in files then Some(files[id]) else None
    }

    /** The directory listing of retrieveWithContentsByPath: "/" is the root;
        a missing path raises not-found. */
    function ListContents(p: string): (r: Result<set<string>, StoreError>)
      reads this`entries
      ensures r.Err? <==> p != "/" && p !in entries
      ensures r.Ok? ==> r.value == Children(entries, if p == "/" then "" else p)
    {
      if p == "/" then Ok(Children(entries, ""))
      else if p in entries then Ok(Children(entries, p))
      else Err(ObjectNotFound(NotFoundMessage))
    }

    /** createDirectoryEntry: the entry at `p`, with each missing ancestor
        made a directory with a fresh id. */
    method CreateDirectoryEntry(p: string, entry: Entry) returns (r: Result<(), StoreError>)
      requires Valid() && ValidPath(p)
      modifies this`entries, this`nextId
      ensures Valid()
      ensures CreateEntry(old(entries), p, entry, old(nextId)).Err? ==>
        r == Err(CreateFailed(CreateEntry(old(entries), p, entry, old(nextId)).error))
        && entries == old(entries) && nextId == old(nextId)
      ensures CreateEntry(old(entries), p, entry, old(nextId)).Ok? ==>
        r.Ok? && entries == CreateEntry(old(entries), p, entry, old(nextId)).value.entries
        && nextId == CreateEntry(old(entries), p, entry, old(nextId)).value.nextId
      ensures r.Ok? ==> p in entries && entries[p] == entry
    {
      var c := CreateEntry(entries, p, entry, nextId);
      if c.Err? {
        return Err(CreateFailed(c.error));
      }
      CreateEntryTree(entries, p, entry, nextId);
      entries := c.value.entries;
      nextId := c.value.nextId;
      r := Ok(());
    }

    /** createFileStart: draws the file's id, then creates its entry as an
        ingesting file. */
    method CreateFileStart(p: string) returns (r: Result<FileId, StoreError>)
      requires Valid() && ValidPath(p)
      modifies this`entries, this`nextId
      ensures Valid()
      ensures CreateEntry(old(entries), p, FileRef(old(nextId), None), old(nextId) + 1).Err? ==>
        r == Err(CreateFailed(CreateEntry(old(entries), p, FileRef(old(nextId), None), old(nextId) + 1).error))
        && entries == old(entries)
      ensures CreateEntry(old(entries), p, FileRef(old(nextId), None), old(nextId) + 1).Ok? ==>
        r == Ok(old(nextId))
        && entries == CreateEntry(old(entries), p, FileRef(old(nextId), None), old(nextId) + 1).value.entries
        && nextId == CreateEntry(old(entries), p, FileRef(old(nextId), None), old(nextId) + 1).value.nextId
      ensures r.Ok? ==> p in entries && entries[p] == FileRef(r.value, None)
      ensures old(IdsFresh()) ==> IdsFresh()
    {
      var id := DrawId();
      ghost var before := entries;
      ghost var counter := nextId;
      ghost var unused := UnusedId(id);
      ghost var c := CreateEntry(before, p, FileRef(id, None), counter);
      assert c == CreateEntry(old(entries), p, FileRef(old(nextId), None), old(nextId) + 1);
      var created := CreateDirectoryEntry(p, FileRef(id, None));
      if created.Err? {
        return Err(created.error);
      }
      if unused {
        CreateKeepsIdsFresh(before, p, FileRef(id, None), counter);
      }
      r := Ok(id);
    }

    /** Draws a new file id from the counter, standing for the UUID the
        file-id step generates. */
    method DrawId() returns (id: FileId)
      modifies this`nextId
      ensures id == old(nextId) && nextId == id + 1
      ensures old(IdsFresh()) ==> UnusedId(id)
    {
      id := nextId;
      nextId := nextId + 1;
    }

    /** createFileComplete: records the copied file, making the ingesting
        file complete. */
    method CreateFileComplete(id: FileId, info: FileInfo) returns (r: Result<FSObject, StoreError>)
      modifies this`files
      ensures r.Err? ==> files == old(files)
      ensures r.Err? <==> forall q :: q in entries && entries[q].id == id ==> entries[q].DirEntry?
      ensures (forall q :: q in entries ==> entries[q].id != id) ==> r == Err(ObjectNotFound(NotFoundMessage))
      ensures r.Ok? ==> files == old(files)[id := info]
      ensures r.Ok? ==> r.value.path in entries && r.value == ObjectAt(r.value.path) && r.value.objectId == id && r.value.objectType == File
    {
      var any := FindById(id);
      if any.None? {
        return Err(ObjectNotFound(NotFoundMessage));
      }
      var p := FindFileRef(id);
      if p.None? {
        return Err(InvalidFileSystemObjectType(BadObjectTypeMessage));
      }
      files := files[id := info];
      r := Ok(ObjectAt(p.value));
    }

    /** createFileCompleteUndo: drops the file record, so the file is
        ingesting again. */
    method CreateFileCompleteUndo(id: FileId)
      modifies this`files
      ensures files == old(files) - {id}
    {
      files := files - {id};
    }

    /** Removes the file reference at `p` and then every directory above it
        left empty, walking up one directory at a time. */
    method RemoveAt(p: string)
      requires Valid() && p in entries && entries[p].FileRef?
      modifies this`entries
      ensures Valid()
      ensures entries == RemoveEntry(old(entries), p)
    {
      RemoveFileRef(entries, p);
      entries := entries - {p};
      var d := Parent(p);
      while d != "" && d in entries && entries[d].DirEntry? && !HasChildren(entries, d)
        invariant Prune(entries, d) == RemoveEntry(old(entries), p)
        decreases |d|
      {
        entries := entries - {d};
        d := Parent(d);
      }
    }

    /** createFileStartUndo: deletes the entry of a file that is being
        created; a directory at the path is refused. */
    method CreateFileStartUndo(p: string, flightId: string) returns (r: Result<bool, StoreError>)
      requires Valid()
      modifies this`entries
      ensures Valid()
      ensures p !in old(entries) ==> r == Ok(false) && entries == old(entries)
      ensures p in old(entries) && old(entries)[p].DirEntry? ==> r == Err(FileSystemCorrupt(BadObjectTypeMessage)) && entries == old(entries)
      ensures p in old(entries) && old(entries)[p].FileRef? ==> r == Ok(true) && entries == RemoveEntry(old(entries), p)
    {
      if p !in entries {
        return Ok(false);
      }
      if entries[p].DirEntry? {
        return Err(FileSystemCorrupt(BadObjectTypeMessage));
      }
      RemoveAt(p);
      r := Ok(true);
    }

    /** Some dataset still depends on the file. */
    predicate HasDependency(id: FileId)
      reads this`dependencies
    {
      exists k :: k in dependencies && k.1 == id && dependencies[k] > 0
    }

    /** storeDatasetFileDependency: one more reference from the dataset. */
    method StoreDatasetFileDependency(datasetId: string, id: FileId)
      modifies this`dependencies
      ensures dependencies == old(dependencies)[(datasetId, id) := (if (datasetId, id) in old(dependencies) then old(dependencies)[(datasetId, id)] else 0) + 1]
      ensures HasDependency(id)
    {
      var count := if (datasetId, id) in dependencies then dependencies[(datasetId, id)] else 0;
      dependencies := dependencies[(datasetId, id) := count + 1];
      assert (datasetId, id) in dependencies;
    }

    /** removeDatasetFileDependency: one reference fewer; the count stays at
        zero once there. */
    method RemoveDatasetFileDependency(datasetId: string, id: FileId)
      modifies this`dependencies
      ensures (datasetId, id) in old(dependencies) && old(dependencies)[(datasetId, id)] > 0 ==>
        dependencies == old(dependencies)[(datasetId, id) := old(dependencies)[(datasetId, id)] - 1]
      ensures !((datasetId, id) in old(dependencies) && old(dependencies)[(datasetId, id)] > 0) ==> dependencies == old(dependencies)
    {
      if (datasetId, id) in dependencies && dependencies[(datasetId, id)] > 0 {
        dependencies := dependencies[(datasetId, id) := dependencies[(datasetId, id)] - 1];
      }
    }

    /** deleteFileStart: marks the file as being deleted by the flight,
        unless a dataset still depends on it. Ok(false) when there is no
        such object. */
    method DeleteFileStart(id: FileId, flightId: string) returns (r: Result<bool, StoreError>)
      modifies this`deleting
      ensures (forall q :: q in entries ==> entries[q].id != id) ==> r == Ok(false)
      ensures r.Ok? && r.value <==> (exists q :: q in entries && entries[q].id == id && entries[q].FileRef?) && !HasDependency(id)
      ensures r == Ok(true) ==> deleting == old(deleting)[id := flightId]
      ensures r != Ok(true) ==> deleting == old(deleting)
      ensures (exists q :: q in entries && entries[q].id == id && entries[q].FileRef?) && HasDependency(id) ==>
        r == Err(FileSystemObjectDependency(DatasetDependencyMessage))
      ensures (exists q :: q in entries && entries[q].id == id)
              && (forall q :: q in entries && entries[q].id == id ==> entries[q].DirEntry?)
        ==> r == Err(InvalidFileSystemObjectType(DirectoryDeleteMessage))
    {
      var any := FindById(id);
      if any.None? {
        return Ok(false);
      }
      var p := FindFileRef(id);
      if p.None? {
        return Err(InvalidFileSystemObjectType(DirectoryDeleteMessage));
      }
      if HasDependency(id) {
        return Err(FileSystemObjectDependency(DatasetDependencyMessage));
      }
      deleting := deleting[id := flightId];
      assert any.value in entries && entries[any.value].id == id;
      r := Ok(true);
    }

    /** The path of a file reference with id `id`, if there is one. */
    method FindFileRef(id: FileId) returns (r: Option<string>)
      ensures r.Some? ==> r.value in entries && entries[r.value].id == id && entries[r.value].FileRef?
      ensures r.None? <==> forall q :: q in entries && entries[q].id == id ==> entries[q].DirEntry?
    {
      if exists q :: q in entries && entries[q].id == id && entries[q].FileRef? {
        var q :| q in entries && entries[q].id == id && entries[q].FileRef?;
        r := Some(q);
      } else {
        r := None;
      }
    }

    /** deleteFileComplete: removes the file, its record and its delete mark,
        and prunes the directories left empty; refused for a directory, for a
        file another flight is deleting, and for a file a dataset came to
        depend on since the delete started. */
    method DeleteFileComplete(id: FileId, flightId: string) returns (r: Result<bool, StoreError>)
      requires Valid()
      modifies this`entries, this`files, this`deleting
      ensures Valid()
      ensures (forall q :: q in old(entries) ==> old(entries)[q].id != id) ==> r == Ok(false)
      ensures r.Err? || r == Ok(false) ==> entries == old(entries) && files == old(files) && deleting == old(deleting)
      ensures r == Ok(true) <==>
        (exists q :: q in old(entries) && old(entries)[q].id == id && old(entries)[q].FileRef?)
        && id in old(deleting) && old(deleting)[id] == flightId && !HasDependency(id)
      ensures r == Ok(true) ==>
        (exists q :: q in old(entries) && old(entries)[q].id == id && old(entries)[q].FileRef? && entries == RemoveEntry(old(entries), q))
        && files == old(files) - {id} && deleting == old(deleting) - {id}
      ensures ((exists q :: q in old(entries) && old(entries)[q].id == id && old(entries)[q].FileRef?)
               && id in old(deleting) && old(deleting)[id] == flightId && HasDependency(id))
        ==> r == Err(FileSystemCorrupt(ReferencesMessage))
      ensures ((exists q :: q in old(entries) && old(entries)[q].id == id && old(entries)[q].FileRef?)
               && !(id in old(deleting) && old(deleting)[id] == flightId))
        ==> r == Err(InvalidFileSystemObjectType(OtherDeleterMessage))
      ensures (exists q :: q in old(entries) && old(entries)[q].id == id)
              && (forall q :: q in old(entries) && old(entries)[q].id == id ==> old(entries)[q].DirEntry?)
        ==> r == Err(InvalidFileSystemObjectType(DirectoryDeleteMessage))
    {
      var any := FindById(id);
      if any.None? {
        return Ok(false);
      }
      var p := FindFileRef(id);
      if p.None? {
        return Err(InvalidFileSystemObjectType(DirectoryDeleteMessage));
      }
      if id !in deleting || deleting[id] != flightId {
        return Err(InvalidFileSystemObjectType(OtherDeleterMessage));
      }
      if HasDependency(id) {
        return Err(FileSystemCorrupt(ReferencesMessage));
      }
      RemoveAt(p.value);
      files := files - {id};
      deleting := deleting - {id};
      r := Ok(true);
    }

    /** deleteDirectoryEntry: removes the file reference with id `id`, if
        any, and prunes the directories left empty. */
    method DeleteDirectoryEntry(id: FileId) returns (existed: bool)
      requires Valid()
      modifies this`entries
      ensures Valid()
      ensures existed <==> exists q :: q in old(entries) && old(entries)[q].id == id && old(entries)[q].FileRef?
      ensures !existed ==> entries == old(entries)
      ensures existed ==> exists q :: q in old(entries) && old(entries)[q].id == id && old(entries)[q].FileRef? && entries == RemoveEntry(old(entries), q)
    {
      var p := FindFileRef(id);
      if p.None? {
        return false;
      }
      RemoveAt(p.value);
      existed := true;
    }

    /** deleteFilesFromDataset: every entry, file record and delete mark
        goes. */
    method DeleteAllFiles()
      modifies this`entries, this`files, this`deleting
      ensures Valid()
      ensures entries == map[] && files == map[] && deleting == map[]
    {
      entries := map[];
      files := map[];
      deleting := map[];
    }
  }
}
