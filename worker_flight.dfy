/** FileIngestWorkerFlight: the flight the bulk-load driver launches for one
    file. Its constructor lays out the plan, four steps appended in order,
    the directory and file steps with the file-system retry rule. */
module WorkerFlight {
  import opened Common
  import opened FileStores
  import opened WorkingMaps

  datatype StepKind = FileIdStep | DirectoryStep | PrimaryDataStep | FileStep

  /** The retry rule of getDefaultRandomBackoffRetryRule, sized by the
      engine's maximum number of threads. */
  datatype RetryRule = RandomBackoff(maxStairwayThreads: int)

  datatype PlannedStep = PlannedStep(step: StepKind, retry: Option<RetryRule>)

  /** The position of the first step of kind `k` in `plan`, or |plan|. */
  function IndexOf(plan: seq<PlannedStep>, k: StepKind): (i: nat)
    ensures i <= |plan|
    ensures i < |plan| ==> plan[i].step == k
    ensures forall j :: 0 <= j < i ==> plan[j].step != k
  {
    if plan == [] then 0
    else if plan[0].step == k then 0
    else 1 + IndexOf(plan[1..], k)
  }

  /** The plan a worker flight lays out. */
  predicate WorkerPlan(plan: seq<PlannedStep>, maxStairwayThreads: int) {
    plan == [
      PlannedStep(FileIdStep, None),
      PlannedStep(DirectoryStep, Some(RandomBackoff(maxStairwayThreads))),
      PlannedStep(PrimaryDataStep, None),
      PlannedStep(FileStep, Some(RandomBackoff(maxStairwayThreads)))]
  }

  class FileIngestWorkerFlight {
    var steps: seq<PlannedStep>

    /** The flight plan: the file id, then the directory entry that
        reserves the path, then the copy of the data, then the file record
        that makes the file visible. */
    constructor (maxStairwayThreads: int)
      ensures WorkerPlan(steps, maxStairwayThreads)
    {
      steps := [];
      new;
      var fileSystemRetry := RandomBackoff(maxStairwayThreads);
      AddStep(FileIdStep, None);
      AddStep(DirectoryStep, Some(fileSystemRetry));
      AddStep(PrimaryDataStep, None);
      AddStep(FileStep, Some(fileSystemRetry));
    }

    /** addStep: appends a step, with its retry rule if it has one. */
    method AddStep(step: StepKind, retry: Option<RetryRule>)
      modifies this`steps
      ensures steps == old(steps) + [PlannedStep(step, retry)]
    {
      steps := steps + [PlannedStep(step, retry)];
    }
  }

  /** The plan has four steps, each kind once: the file id comes before the
      directory entry (so the directory step's undo can read it), the
      directory entry before the copy, and the file record last. */
  lemma {:induction false} PlanOrder(plan: seq<PlannedStep>, maxStairwayThreads: int)
    requires WorkerPlan(plan, maxStairwayThreads)
    ensures |plan| == 4
    ensures IndexOf(plan, FileIdStep) < IndexOf(plan, DirectoryStep)
    ensures IndexOf(plan, DirectoryStep) < IndexOf(plan, PrimaryDataStep)
    ensures IndexOf(plan, PrimaryDataStep) < IndexOf(plan, FileStep) == |plan| - 1
    ensures forall i, j :: 0 <= i < j < |plan| ==> plan[i].step != plan[j].step
  {
    var t1 := plan[1..];
    var t2 := t1[1..];
    var t3 := t2[1..];
    assert t1[0].step == DirectoryStep && t2[0].step == PrimaryDataStep && t3[0].step == FileStep;
    assert IndexOf(t3, FileStep) == 0;
    assert IndexOf(t2, PrimaryDataStep) == 0 && IndexOf(t2, FileStep) == 1;
    assert IndexOf(t1, DirectoryStep) == 0 && IndexOf(t1, PrimaryDataStep) == 1 && IndexOf(t1, FileStep) == 2;
    assert IndexOf(plan, DirectoryStep) == 1 && IndexOf(plan, PrimaryDataStep) == 2 && IndexOf(plan, FileStep) == 3;
  }

  /** Exactly the directory and file steps retry, both with the same rule. */
  lemma PlanRetries(plan: seq<PlannedStep>, maxStairwayThreads: int)
    requires WorkerPlan(plan, maxStairwayThreads)
    ensures forall i :: 0 <= i < |plan| ==>
      (plan[i].retry.Some? <==> plan[i].step == DirectoryStep || plan[i].step == FileStep)
    ensures forall i :: 0 <= i < |plan| && plan[i].retry.Some? ==>
      plan[i].retry.value == RandomBackoff(maxStairwayThreads)
  {
  }

  /** IngestFileIdStep, whose code is not part of this model: a new file id
      in FILE_ID. */
  method IngestFileId(fileDao: FileStore, work: WorkingMap)
    modifies fileDao`nextId, work`fileId
    ensures work.fileId == Some(old(fileDao.nextId)) && fileDao.nextId == old(fileDao.nextId) + 1
    ensures old(fileDao.IdsFresh()) ==> fileDao.UnusedId(work.fileId.value)
  {
    var id := fileDao.DrawId();
    work.fileId := Some(id);
  }
}
