/** IngestFileDirectoryStep: the step of a file-ingest worker flight that
    reserves the target path. It looks the path up in the directory store
    and either creates a file reference for the flight's file id, refuses a
    path another load owns, resumes its own earlier reservation, or adopts
    the reservation of an earlier run of the same load. */
module DirectoryStep {
  import opened Common
  import opened Stairway
  import opened Paths
  import opened Namespace
  import opened FileStores
  import opened WorkingMaps

  /** The store call whose transaction aborts with
      FileSystemAbortTransactionException, if one does. */
  datatype DaoCall = LookupEntryCall | CreateEntryCall | LookupFileCall | DeleteEntryCall

  /** The load tag an entry carries: a directory carries none. */
  function LoadTagOf(e: Entry): Option<string> {
    if e.FileRef? then e.loadTag else None
  }

  /** The entry doStep creates: a file reference to the flight's file,
      tagged with the request's load tag. */
  function NewEntry(fileId: FileId, loadTag: string): Entry {
    FileRef(fileId, Some(loadTag))
  }

  class IngestFileDirectoryStep {
    const fileDao: FileStore

    constructor (fileDao: FileStore)
      ensures this.fileDao == fileDao
    {
      this.fileDao := fileDao;
    }

    /** doStep. LOAD_COMPLETED is first set to false. Then, on what the
        lookup of the target path finds: nothing, and the entry is created;
        an entry of another load, and FileAlreadyExistsException; our own
        entry, and nothing changes; an entry of our load with another file
        id, and FILE_ID becomes that id, with LOAD_COMPLETED true when the
        file record exists. An aborted transaction asks for a retry. On
        success the target path holds a file reference to FILE_ID with the
        request's load tag. */
    method DoStep(request: FileLoadModel, work: WorkingMap, abortAt: Option<DaoCall>) returns (r: StepResult)
      requires fileDao.Valid() && ValidPath(request.targetPath) && work.fileId.Some?
      modifies fileDao`entries, fileDao`nextId, work`fileId, work`loadCompleted
      ensures fileDao.Valid()
      // an aborted lookup
      ensures abortAt == Some(LookupEntryCall) ==>
        && r == StepFailureRetry(FileSystemAbortTransaction)
        && fileDao.entries == old(fileDao.entries) && fileDao.nextId == old(fileDao.nextId)
        && work.fileId == old(work.fileId) && work.loadCompleted == Some(false)
      // (1) nothing at the path
      ensures abortAt != Some(LookupEntryCall) && request.targetPath !in old(fileDao.entries) ==>
        && work.fileId == old(work.fileId) && work.loadCompleted == Some(false)
        && (abortAt == Some(CreateEntryCall) ==>
              && r == StepFailureRetry(FileSystemAbortTransaction)
              && fileDao.entries == old(fileDao.entries) && fileDao.nextId == old(fileDao.nextId))
        && (abortAt != Some(CreateEntryCall) &&
            CreateEntry(old(fileDao.entries), request.targetPath, NewEntry(old(work.fileId).value, request.loadTag), old(fileDao.nextId)).Err? ==>
              && r == StepThrew(DirectoryStoreFailure(request.targetPath))
              && fileDao.entries == old(fileDao.entries) && fileDao.nextId == old(fileDao.nextId))
        && (abortAt != Some(CreateEntryCall) &&
            CreateEntry(old(fileDao.entries), request.targetPath, NewEntry(old(work.fileId).value, request.loadTag), old(fileDao.nextId)).Ok? ==>
              && r == StepSuccess
              && fileDao.entries == CreateEntry(old(fileDao.entries), request.targetPath, NewEntry(old(work.fileId).value, request.loadTag), old(fileDao.nextId)).value.entries
              && fileDao.nextId == CreateEntry(old(fileDao.entries), request.targetPath, NewEntry(old(work.fileId).value, request.loadTag), old(fileDao.nextId)).value.nextId)
      // (2a) an entry of another load
      ensures abortAt != Some(LookupEntryCall) && request.targetPath in old(fileDao.entries)
              && LoadTagOf(old(fileDao.entries)[request.targetPath]) != Some(request.loadTag) ==>
        && r == StepThrew(FileAlreadyExists("Path already exists: " + request.targetPath))
        && fileDao.entries == old(fileDao.entries) && fileDao.nextId == old(fileDao.nextId)
        && work.fileId == old(work.fileId) && work.loadCompleted == Some(false)
      // (2b) our own entry
      ensures abortAt != Some(LookupEntryCall) && request.targetPath in old(fileDao.entries)
              && old(fileDao.entries)[request.targetPath] == NewEntry(old(work.fileId).value, request.loadTag) ==>
        && r == StepSuccess
        && fileDao.entries == old(fileDao.entries) && fileDao.nextId == old(fileDao.nextId)
        && work.fileId == old(work.fileId) && work.loadCompleted == Some(false)
      // (2c) an entry of our load with another file id
      ensures abortAt != Some(LookupEntryCall) && request.targetPath in old(fileDao.entries)
              && LoadTagOf(old(fileDao.entries)[request.targetPath]) == Some(request.loadTag)
              && old(fileDao.entries)[request.targetPath].id != old(work.fileId).value ==>
        && fileDao.entries == old(fileDao.entries) && fileDao.nextId == old(fileDao.nextId)
        && work.fileId == Some(old(fileDao.entries)[request.targetPath].id)
        && (abortAt == Some(LookupFileCall) ==>
              r == StepFailureRetry(FileSystemAbortTransaction) && work.loadCompleted == Some(false))
        && (abortAt != Some(LookupFileCall) ==>
              r == StepSuccess && work.loadCompleted == Some(work.fileId.value in fileDao.files))
      // what a success leaves behind
      ensures r == StepSuccess ==>
        && work.fileId.Some? && work.loadCompleted.Some?
        && request.targetPath in fileDao.entries
        && fileDao.entries[request.targetPath] == NewEntry(work.fileId.value, request.loadTag)
      ensures r.StepFailureRetry? ==> r.error == FileSystemAbortTransaction && abortAt.Some?
      ensures old(fileDao.UnusedId(work.fileId.value)) ==> fileDao.IdsFresh()
    {
      var fileId := work.fileId.value;
      work.loadCompleted := Some(false);
      var targetPath := request.targetPath;
      if abortAt == Some(LookupEntryCall) {
        return StepFailureRetry(FileSystemAbortTransaction);
      }
      var existingEntry := fileDao.LookupByPath(targetPath);
      if existingEntry.None? {
        if abortAt == Some(CreateEntryCall) {
          return StepFailureRetry(FileSystemAbortTransaction);
        }
        ghost var before := fileDao.entries;
        ghost var counter := fileDao.nextId;
        ghost var unused := fileDao.UnusedId(fileId);
        var created := fileDao.CreateDirectoryEntry(targetPath, NewEntry(fileId, request.loadTag));
        if created.Err? {
          return StepThrew(DirectoryStoreFailure(targetPath));
        }
        if unused {
          CreateKeepsIdsFresh(before, targetPath, NewEntry(fileId, request.loadTag), counter);
        }
      } else {
        var existing := existingEntry.value;
        if LoadTagOf(existing) != Some(request.loadTag) {
          return StepThrew(FileAlreadyExists("Path already exists: " + targetPath));
        }
        if existing.id != fileId {
          fileId := existing.id;
          work.fileId := Some(fileId);
          if abortAt == Some(LookupFileCall) {
            return StepFailureRetry(FileSystemAbortTransaction);
          }
          var fileEntry := fileDao.LookupFile(fileId);
          if fileEntry.Some? {
            work.loadCompleted := Some(true);
          }
        }
      }
      r := StepSuccess;
    }

    /** undoStep: deletes the directory entry of the file FILE_ID names,
        whichever id that is by then; an aborted transaction asks for a
        retry. With ids unique, the entry removed is the one holding that id. */
    method UndoStep(work: WorkingMap, abortAt: Option<DaoCall>) returns (r: StepResult)
      requires fileDao.Valid() && work.fileId.Some?
      modifies fileDao`entries
      ensures fileDao.Valid()
      ensures abortAt == Some(DeleteEntryCall) ==>
        r == StepFailureRetry(FileSystemAbortTransaction) && fileDao.entries == old(fileDao.entries)
      ensures abortAt != Some(DeleteEntryCall) ==> r == StepSuccess
      ensures abortAt != Some(DeleteEntryCall) && IdsUnique(old(fileDao.entries)) ==>
        forall q :: q in old(fileDao.entries) && old(fileDao.entries)[q].FileRef? && old(fileDao.entries)[q].id == work.fileId.value ==>
          fileDao.entries == RemoveEntry(old(fileDao.entries), q)
      ensures (forall q :: q in old(fileDao.entries) && old(fileDao.entries)[q].FileRef? ==> old(fileDao.entries)[q].id != work.fileId.value) ==>
        fileDao.entries == old(fileDao.entries)
    {
      var fileId := work.fileId.value;
      if abortAt == Some(DeleteEntryCall) {
        return StepFailureRetry(FileSystemAbortTransaction);
      }
      var existed := fileDao.DeleteDirectoryEntry(fileId);
      r := StepSuccess;
    }
  }
}
