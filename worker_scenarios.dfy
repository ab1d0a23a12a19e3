/** Runs of the first steps of file-ingest worker flights against one
    dataset's store: a first load that reserves its path and completes, an
    aborted reservation that is retried, a recovery that re-runs the
    directory step, a re-run of a load after it completed or after it
    crashed, and another load that finds the path taken. */
module WorkerScenarios {
  import opened Common
  import opened Stairway
  import opened Paths
  import opened Namespace
  import opened FileStores
  import opened WorkingMaps
  import opened DirectoryStep
  import opened PrimaryLocationStep
  import opened WorkerFlight

  /** A first flight in an empty store: its file id is the first one drawn,
      and its directory step reserves the target path and the directories
      above it. */
  method ReserveAlone(request: FileLoadModel)
    returns (store: FileStore, dir: IngestFileDirectoryStep, work: WorkingMap, r: StepResult)
    requires ValidPath(request.targetPath)
    ensures fresh(store) && fresh(work) && dir.fileDao == store
    ensures store.Valid() && store.IdsFresh() && store.files == map[] && store.nextId > 0
    ensures store.entries == CreatedAlone(request.targetPath, NewEntry(0, request.loadTag), 1)
    ensures r == StepSuccess && work.fileId == Some(0) && work.loadCompleted == Some(false)
  {
    store := new FileStore();
    dir := new IngestFileDirectoryStep(store);
    work := new WorkingMap();
    IngestFileId(store, work);
    r := ReserveFirst(dir, request, work);
  }

  /** The directory step of the first flight in an empty store. */
  method ReserveFirst(dir: IngestFileDirectoryStep, request: FileLoadModel, work: WorkingMap) returns (r: StepResult)
    requires ValidPath(request.targetPath) && dir.fileDao.Valid() && dir.fileDao.UnusedId(0)
    requires dir.fileDao.entries == map[] && dir.fileDao.nextId == 1 && work.fileId == Some(0)
    modifies dir.fileDao`entries, dir.fileDao`nextId, work`fileId, work`loadCompleted
    ensures dir.fileDao.Valid() && dir.fileDao.IdsFresh() && dir.fileDao.nextId > 0
    ensures dir.fileDao.entries == CreatedAlone(request.targetPath, NewEntry(0, request.loadTag), 1)
    ensures r == StepSuccess && work.fileId == Some(0) && work.loadCompleted == Some(false)
  {
    var p := request.targetPath;
    CreateAlone(p, NewEntry(0, request.loadTag), 1);
    assert CreateEntry(dir.fileDao.entries, p, NewEntry(work.fileId.value, request.loadTag), dir.fileDao.nextId)
        == CreateEntry(map[], p, NewEntry(0, request.loadTag), 1);
    AddDirsShape(map[], Ancestors(p), 1);
    r := dir.DoStep(request, work, None);
  }

  /** The first load of a file: after the directory step the file is still
      being ingested; the file step, standing for createFileComplete, makes
      it a complete file under the same id. */
  method FirstLoadCompletes(request: FileLoadModel, info: FileInfo)
    returns (reserved: StepResult, ingesting: Result<FSObject, StoreError>, completed: Result<FSObject, StoreError>)
    requires ValidPath(request.targetPath)
    ensures reserved == StepSuccess
    ensures ingesting == Ok(FSObject(0, request.targetPath, IngestingFile))
    ensures completed == Ok(FSObject(0, request.targetPath, File))
  {
    var store, dir, work;
    store, dir, work, reserved := ReserveAlone(request);
    CreatedIsAlone(request.targetPath, NewEntry(0, request.loadTag), 1);
    ingesting := store.RetrieveByPath(request.targetPath);
    completed := store.CreateFileComplete(0, info);
  }

  /** An aborted creation asks for a retry and reserves nothing; the retried
      step reserves the path. */
  method AbortThenRetry(request: FileLoadModel)
    returns (aborted: StepResult, before: Entries, retried: StepResult)
    requires ValidPath(request.targetPath)
    ensures aborted == StepFailureRetry(FileSystemAbortTransaction) && before == map[]
    ensures retried == StepSuccess
  {
    var store := new FileStore();
    var dir := new IngestFileDirectoryStep(store);
    var work := new WorkingMap();
    IngestFileId(store, work);
    aborted := dir.DoStep(request, work, Some(CreateEntryCall));
    before := store.entries;
    retried := ReserveFirst(dir, request, work);
  }

  /** A recovery runs the directory step of the same flight again: it finds
      its own entry and changes nothing. */
  method RecoveryResumes(request: FileLoadModel)
    returns (first: StepResult, again: StepResult, untouched: bool)
    requires ValidPath(request.targetPath)
    ensures first == StepSuccess && again == StepSuccess && untouched
  {
    var store, dir, work;
    store, dir, work, first := ReserveAlone(request);
    CreatedIsAlone(request.targetPath, NewEntry(0, request.loadTag), 1);
    var entries := store.entries;
    again := dir.DoStep(request, work, None);
    untouched := store.entries == entries && work.fileId == Some(0);
  }

  /** The directory step of a second flight of the same load, with the first
      flight's entry at the target path: it adopts the first flight's id. */
  method SecondFlight(store: FileStore, request: FileLoadModel) returns (work: WorkingMap, r: StepResult)
    requires ValidPath(request.targetPath) && store.Valid() && store.IdsFresh() && store.nextId > 0
    requires request.targetPath in store.entries && store.entries[request.targetPath] == NewEntry(0, request.loadTag)
    modifies store`entries, store`nextId
    ensures fresh(work) && store.Valid() && store.IdsFresh()
    ensures store.entries == old(store.entries) && store.files == old(store.files)
    ensures r == StepSuccess && work.fileId == Some(0)
    ensures work.loadCompleted == Some(0 in store.files)
  {
    var dir := new IngestFileDirectoryStep(store);
    work := new WorkingMap();
    IngestFileId(store, work);
    r := dir.DoStep(request, work, None);
  }

  /** A re-run of a load whose first flight completed the file: the second
      flight takes over the first one's file id and marks the load
      completed, and its primary-location step asks for no bucket. */
  method RerunAfterCompletion(request: FileLoadModel, info: FileInfo, flightId: FlightId, bucket: Option<Bucket>)
    returns (second: StepResult, fileId: Option<FileId>, completed: bool, location: StepResult, bucketCalls: seq<BucketCall>)
    requires ValidPath(request.targetPath)
    ensures second == StepSuccess && fileId == Some(0) && completed
    ensures location == StepSuccess && bucketCalls == []
  {
    var store, dir, work, first := ReserveAlone(request);
    CreatedIsAlone(request.targetPath, NewEntry(0, request.loadTag), 1);
    var done := store.CreateFileComplete(0, info);
    var work2;
    work2, second := SecondFlight(store, request);
    fileId := work2.fileId;
    completed := work2.Completed();
    var resources := new ResourceService({});
    var locationStep := new IngestFilePrimaryDataLocationStep(resources, "dataset");
    location := locationStep.DoStep(work2, flightId, bucket);
    bucketCalls := resources.bucketRequests;
  }

  /** A re-run of a load whose first flight stopped after its directory
      step: the second flight takes over the first one's file id and goes on
      with the load; undoing its directory step deletes the first flight's
      entry, and with it the directories created for it. */
  method RerunAfterCrash(request: FileLoadModel)
    returns (second: StepResult, fileId: Option<FileId>, completed: bool, undone: StepResult, left: Entries)
    requires ValidPath(request.targetPath)
    ensures second == StepSuccess && fileId == Some(0) && !completed
    ensures undone == StepSuccess && left == map[]
  {
    var p := request.targetPath;
    var store, dir, work, first := ReserveAlone(request);
    CreatedIsAlone(p, NewEntry(0, request.loadTag), 1);
    var work2;
    work2, second := SecondFlight(store, request);
    fileId := work2.fileId;
    completed := work2.Completed();
    undone := UndoAdopted(store, work2, request);
    left := store.entries;
  }

  /** The directory step's undo in a flight that adopted the id of the only
      file of the store. */
  method UndoAdopted(store: FileStore, work: WorkingMap, request: FileLoadModel) returns (r: StepResult)
    requires ValidPath(request.targetPath) && store.Valid() && IdsUnique(store.entries) && work.fileId == Some(0)
    requires store.entries == CreatedAlone(request.targetPath, NewEntry(0, request.loadTag), 1)
    modifies store`entries
    ensures r == StepSuccess && store.entries == map[]
  {
    var p := request.targetPath;
    CreatedIsAlone(p, NewEntry(0, request.loadTag), 1);
    CreateThenRemoveAlone(p, NewEntry(0, request.loadTag), 1);
    assert p in store.entries && store.entries[p].FileRef? && store.entries[p].id == 0;
    var dir := new IngestFileDirectoryStep(store);
    r := dir.UndoStep(work, None);
  }

  /** A load with another load tag finds the path taken: the step throws
      FileAlreadyExistsException and the store keeps the first load's entry. */
  method OtherLoadRefused(request: FileLoadModel, otherTag: string)
    returns (r: StepResult, kept: bool)
    requires ValidPath(request.targetPath) && otherTag != request.loadTag
    ensures r == StepThrew(FileAlreadyExists("Path already exists: " + request.targetPath))
    ensures kept
  {
    var store, dir, work, first := ReserveAlone(request);
    CreatedIsAlone(request.targetPath, NewEntry(0, request.loadTag), 1);
    var before := store.entries;
    var other := request.(loadTag := otherTag);
    var work2 := new WorkingMap();
    IngestFileId(store, work2);
    r := dir.DoStep(other, work2, None);
    kept := store.entries == before && store.entries[request.targetPath] == NewEntry(0, request.loadTag);
  }
}
