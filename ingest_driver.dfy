/** The bulk-load driver step (IngestDriverStep): a loop that keeps up to
    podCount * LOAD_CONCURRENT_FILES file-ingest flights running until every
    file of the load is finished, or, once more than maxFailedFileLoads loads
    have failed, waits for the running ones to finish and stops. Rows of the
    ledger marked RUNNING are reconciled against the engine's flight states
    before each decision. */
module IngestDriver {
  import opened Common
  import opened Stairway
  import opened Engine
  import opened Loads

  /** What the driver does with one RUNNING row given its flight's state. */
  datatype Verdict =
    | StillRunning
    | LoadFailed(message: string)
    | LoadSucceeded(fileId: Option<FileId>, fileInfo: Option<FileInfo>)
    | Corrupt(error: StepError)

  /** The statuses of a flight that is not finished. */
  predicate IsActive(s: FlightStatus) {
    s.Running? || s.Waiting? || s.Ready? || s.Queued?
  }

  /** The switch in getLoadCandidates. */
  function Classify(fs: FlightState): Verdict
  {
    match fs.status
    case Running => StillRunning
    case Waiting => StillRunning
    case Ready => StillRunning
    case Queued => StillRunning
    case Error => LoadFailed(fs.exception.GetOr("unknown error"))
    case Fatal => LoadFailed(fs.exception.GetOr("unknown error"))
    case Success =>
      if fs.resultMap.None? then Corrupt(FileSystemCorrupt("no result map in flight state"))
      else LoadSucceeded(fs.resultMap.value.fileId, fs.resultMap.value.fileInfo)
    case Unrecognized(name) => Corrupt(CorruptMetadata("Invalid flight state: " + name))
  }

  /** The switch sorts every status into exactly one outcome: unfinished
      statuses keep the load running, ERROR and FATAL fail it with the
      flight's exception or "unknown error", SUCCESS records the result map's
      file id and file info, and SUCCESS without a result map or any other
      status is corrupt metadata. */
  lemma ClassifySwitch(fs: FlightState)
    ensures Classify(fs).StillRunning? <==> IsActive(fs.status)
    ensures Classify(fs).LoadFailed? <==> fs.status.Error? || fs.status.Fatal?
    ensures Classify(fs).LoadFailed? ==> Classify(fs).message == fs.exception.GetOr("unknown error")
    ensures Classify(fs).LoadSucceeded? <==> fs.status.Success? && fs.resultMap.Some?
    ensures Classify(fs).LoadSucceeded? ==>
      Classify(fs).fileId == fs.resultMap.value.fileId && Classify(fs).fileInfo == fs.resultMap.value.fileInfo
    ensures Classify(fs).Corrupt? <==> fs.status.Unrecognized? || (fs.status.Success? && fs.resultMap.None?)
    ensures fs.status.Success? && fs.resultMap.None? ==> Classify(fs) == Corrupt(FileSystemCorrupt("no result map in flight state"))
    ensures fs.status.Unrecognized? ==> Classify(fs) == Corrupt(CorruptMetadata("Invalid flight state: " + fs.status.name))
  {
  }

  /** The verdict for a row, if it is RUNNING with a known flight. */
  function VerdictOf(row: LoadFile, flights: map<FlightId, FlightState>): Option<Verdict> {
    if row.state.Running? && row.state.flightId in flights then Some(Classify(flights[row.state.flightId]))
    else None
  }

  /** What reconciliation writes into a row: FAILED or SUCCEEDED for a
      finished flight, nothing otherwise. */
  function Recorded(row: LoadFile, flights: map<FlightId, FlightState>): (st: Option<LoadState>)
    ensures !row.state.Running? ==> st.None?
    ensures st.Some? ==> st.value.Failed? || st.value.Succeeded?
  {
    match VerdictOf(row, flights)
    case Some(LoadFailed(e)) => Some(Failed(e))
    case Some(LoadSucceeded(id, info)) => Some(Succeeded(id, info))
    case _ => None
  }

  /** The table after every RUNNING row has been reconciled. */
  function Reconcile(rows: seq<LoadFile>, flights: map<FlightId, FlightState>): (r: seq<LoadFile>)
    ensures |r| == |rows|
    ensures forall j :: 0 <= j < |rows| ==> r[j] == Updated(rows[j], Recorded(rows[j], flights))
  {
    seq(|rows|, j requires 0 <= j < |rows| => Updated(rows[j], Recorded(rows[j], flights)))
  }

  /** Reconciliation as a per-row write. */
  function RecordedUpdate(flights: map<FlightId, FlightState>): LoadFile -> Option<LoadState> {
    x => Recorded(x, flights)
  }

  /** Reconciliation is the pass over the RUNNING rows that writes what is
      recorded for each. */
  lemma ReconcileByPass(rows: seq<LoadFile>, flights: map<FlightId, FlightState>)
    requires DistinctPaths(rows)
    ensures ApplyEach(rows, RunningLoads(rows), |RunningLoads(rows)|, RecordedUpdate(flights)) == Reconcile(rows, flights)
  {
    ApplyEachRunning(rows, RecordedUpdate(flights));
  }

  /** Reconciliation can complete: every RUNNING row has a known flight in a
      state the switch accepts. */
  predicate Reconcilable(rows: seq<LoadFile>, flights: map<FlightId, FlightState>) {
    forall j :: 0 <= j < |rows| && rows[j].state.Running? ==>
      rows[j].state.flightId in flights && !Classify(flights[rows[j].state.flightId]).Corrupt?
  }

  /** `row` is a RUNNING row whose reconciliation throws `e`. */
  predicate BlocksReconciliation(row: LoadFile, flights: map<FlightId, FlightState>, e: StepError) {
    && row.state.Running?
    && (if row.state.flightId in flights then Classify(flights[row.state.flightId]) == Corrupt(e)
        else e == FlightNotFound(row.state.flightId))
  }

  /** The exceptions reconciliation can throw: the two corrupt-state
      exceptions of the switch, and FlightNotFoundException, which needs an
      orphan. */
  predicate ThrownBy(e: StepError, rows: seq<LoadFile>, flights: map<FlightId, FlightState>) {
    e.FileSystemCorrupt? || e.CorruptMetadata? || (e.FlightNotFound? && HasOrphan(rows, flights))
  }

  lemma BlockingError(rows: seq<LoadFile>, j: nat, flights: map<FlightId, FlightState>, e: StepError)
    requires j < |rows| && BlocksReconciliation(rows[j], flights, e)
    ensures ThrownBy(e, rows, flights) && !Reconcilable(rows, flights)
  {
    if e.FlightNotFound? {
      assert Orphan(rows[j], flights);
    }
  }

  /** A RUNNING row that blocks reconciliation is a row of the table. */
  lemma RunningLoadBlocks(rows: seq<LoadFile>, flights: map<FlightId, FlightState>, e: StepError)
    requires exists i :: 0 <= i < |RunningLoads(rows)| && BlocksReconciliation(RunningLoads(rows)[i], flights, e)
    ensures exists j :: 0 <= j < |rows| && BlocksReconciliation(rows[j], flights, e)
    ensures ThrownBy(e, rows, flights) && !Reconcilable(rows, flights)
  {
    var loads := RunningLoads(rows);
    var i :| 0 <= i < |loads| && BlocksReconciliation(loads[i], flights, e);
    assert loads[i] in loads;
    var j :| 0 <= j < |rows| && rows[j] == loads[i];
    BlockingError(rows, j, flights, e);
  }

  /** Whether reconciliation keeps `row` in the running list. */
  predicate Keeps(row: LoadFile, flights: map<FlightId, FlightState>) {
    VerdictOf(row, flights) == Some(StillRunning)
  }

  /** Whether reconciliation records `row` as failed. */
  predicate Fails(row: LoadFile, flights: map<FlightId, FlightState>) {
    VerdictOf(row, flights).Some? && VerdictOf(row, flights).value.LoadFailed?
  }

  /** The first `k` loads of `loads` that are still running, in order. */
  function KeptUpTo(loads: seq<LoadFile>, k: nat, flights: map<FlightId, FlightState>): (r: seq<LoadFile>)
    requires k <= |loads|
    ensures |r| <= k
  {
    if k == 0 then []
    else KeptUpTo(loads, k - 1, flights) + (if Keeps(loads[k - 1], flights) then [loads[k - 1]] else [])
  }

  /** The number of failed flights among the first `k` loads of `loads`. */
  function FailedUpTo(loads: seq<LoadFile>, k: nat, flights: map<FlightId, FlightState>): nat
    requires k <= |loads|
  {
    if k == 0 then 0
    else FailedUpTo(loads, k - 1, flights) + (if Fails(loads[k - 1], flights) then 1 else 0)
  }

  /** None of the first `k` loads of `loads` makes reconciliation throw. */
  predicate NoneThrowUpTo(loads: seq<LoadFile>, k: nat, flights: map<FlightId, FlightState>)
    requires k <= |loads|
  {
    k == 0 || (NoneThrowUpTo(loads, k - 1, flights) && !NeedsThrow(loads[k - 1], flights))
  }

  lemma {:induction false} NoneThrowAll(loads: seq<LoadFile>, k: nat, flights: map<FlightId, FlightState>)
    requires k <= |loads| && NoneThrowUpTo(loads, k, flights)
    ensures forall i :: 0 <= i < k ==> !NeedsThrow(loads[i], flights)
  {
    if k > 0 {
      NoneThrowAll(loads, k - 1, flights);
    }
  }

  /** A load whose reconciliation throws stops every longer prefix from
      reconciling. */
  lemma {:induction false} NoneThrowPrefix(loads: seq<LoadFile>, k: nat, m: nat, flights: map<FlightId, FlightState>)
    requires k < m <= |loads| && NeedsThrow(loads[k], flights)
    ensures !NoneThrowUpTo(loads, m, flights)
  {
    if m > k + 1 {
      NoneThrowPrefix(loads, k, m - 1, flights);
    }
  }

  /** One turn of the reconciliation loop on the load `loads[k]`, whose
      flight's verdict is `v`. */
  lemma ReconcileStep(rows: seq<LoadFile>, loads: seq<LoadFile>, k: nat, flights: map<FlightId, FlightState>, v: Verdict)
    requires k < |loads| && VerdictOf(loads[k], flights) == Some(v) && !v.Corrupt?
    ensures NoneThrowUpTo(loads, k, flights) ==> NoneThrowUpTo(loads, k + 1, flights)
    ensures v.StillRunning? ==> KeptUpTo(loads, k + 1, flights) == KeptUpTo(loads, k, flights) + [loads[k]]
    ensures !v.StillRunning? ==> KeptUpTo(loads, k + 1, flights) == KeptUpTo(loads, k, flights)
    ensures v.LoadFailed? ==> FailedUpTo(loads, k + 1, flights) == FailedUpTo(loads, k, flights) + 1
    ensures !v.LoadFailed? ==> FailedUpTo(loads, k + 1, flights) == FailedUpTo(loads, k, flights)
    ensures ApplyEach(rows, loads, k + 1, RecordedUpdate(flights))
         == Write(ApplyEach(rows, loads, k, RecordedUpdate(flights)), loads[k], Recorded(loads[k], flights))
  {
  }

  /** The loads whose flight is still running (realRunningLoads). */
  function Kept(loads: seq<LoadFile>, flights: map<FlightId, FlightState>): seq<LoadFile> {
    KeptUpTo(loads, |loads|, flights)
  }

  /** The number of loads whose flight failed. */
  function FailedVerdicts(loads: seq<LoadFile>, flights: map<FlightId, FlightState>): nat {
    FailedUpTo(loads, |loads|, flights)
  }

  lemma {:induction false} UpToCons(x: LoadFile, loads: seq<LoadFile>, k: nat, flights: map<FlightId, FlightState>)
    requires k <= |loads|
    ensures KeptUpTo([x] + loads, k + 1, flights) == (if Keeps(x, flights) then [x] else []) + KeptUpTo(loads, k, flights)
    ensures FailedUpTo([x] + loads, k + 1, flights) == (if Fails(x, flights) then 1 else 0) + FailedUpTo(loads, k, flights)
  {
    if k > 0 {
      UpToCons(x, loads, k - 1, flights);
      assert ([x] + loads)[k] == loads[k - 1];
    }
  }

  /** Reconciliation works row by row. */
  lemma ReconcileTail(rows: seq<LoadFile>, flights: map<FlightId, FlightState>)
    requires rows != []
    ensures Reconcile(rows, flights) == [Updated(rows[0], Recorded(rows[0], flights))] + Reconcile(rows[1..], flights)
  {
    assert Reconcile(rows, flights)[1..] == Reconcile(rows[1..], flights);
  }

  /** The count of a table with a first row. */
  lemma CountCons(x: LoadFile, rows: seq<LoadFile>, k: BulkLoadFileState)
    ensures Count([x] + rows, k) == (if x.state.Kind() == k then 1 else 0) + Count(rows, k)
  {
    assert ([x] + rows)[1..] == rows;
  }

  /** The first row's share of the reconciled table's count of state `k`. */
  lemma ReconcileCountStep(rows: seq<LoadFile>, flights: map<FlightId, FlightState>, k: BulkLoadFileState)
    requires rows != []
    ensures Count(Reconcile(rows, flights), k)
         == (if Updated(rows[0], Recorded(rows[0], flights)).state.Kind() == k then 1 else 0) + Count(Reconcile(rows[1..], flights), k)
  {
    ReconcileTail(rows, flights);
    CountCons(Updated(rows[0], Recorded(rows[0], flights)), Reconcile(rows[1..], flights), k);
  }

  /** The RUNNING rows of a table with a first row. */
  lemma RunningLoadsCons(rows: seq<LoadFile>)
    requires rows != []
    ensures RunningLoads(rows) == (if rows[0].state.Running? then [rows[0]] else []) + RunningLoads(rows[1..])
  {
  }

  /** The first row's share of the kept loads. */
  lemma KeptStep(rows: seq<LoadFile>, flights: map<FlightId, FlightState>)
    requires rows != []
    ensures |Kept(RunningLoads(rows), flights)|
         == (if rows[0].state.Running? && Keeps(rows[0], flights) then 1 else 0) + |Kept(RunningLoads(rows[1..]), flights)|
  {
    var rest := RunningLoads(rows[1..]);
    RunningLoadsCons(rows);
    if rows[0].state.Running? {
      UpToCons(rows[0], rest, |rest|, flights);
    }
  }

  /** The first row's share of the failed flights. */
  lemma FailedStep(rows: seq<LoadFile>, flights: map<FlightId, FlightState>)
    requires rows != []
    ensures FailedVerdicts(RunningLoads(rows), flights)
         == (if rows[0].state.Running? && Fails(rows[0], flights) then 1 else 0) + FailedVerdicts(RunningLoads(rows[1..]), flights)
  {
    var rest := RunningLoads(rows[1..]);
    RunningLoadsCons(rows);
    if rows[0].state.Running? {
      UpToCons(rows[0], rest, |rest|, flights);
    }
  }

  /** A reconcilable row stays RUNNING exactly when its flight has not finished. */
  lemma ReconciledRowRunning(row: LoadFile, flights: map<FlightId, FlightState>)
    requires !NeedsThrow(row, flights)
    ensures Updated(row, Recorded(row, flights)).state.Kind() == RunningState <==> row.state.Running? && Keeps(row, flights)
  {
  }

  /** A reconciled row is FAILED when it was, or when its flight failed. */
  lemma ReconciledRowFailed(row: LoadFile, flights: map<FlightId, FlightState>)
    ensures Updated(row, Recorded(row, flights)).state.Kind() == FailedState <==> row.state.Failed? || (row.state.Running? && Fails(row, flights))
  {
  }

  /** After reconciliation the RUNNING rows are exactly the kept ones. */
  lemma {:induction false} ReconcileCountsRunning(rows: seq<LoadFile>, flights: map<FlightId, FlightState>)
    requires Reconcilable(rows, flights)
    ensures Count(Reconcile(rows, flights), RunningState) == |Kept(RunningLoads(rows), flights)|
  {
    if rows != [] {
      assert Reconcilable(rows[1..], flights) by {
        forall j | 0 <= j < |rows[1..]| && rows[1..][j].state.Running?
          ensures rows[1..][j].state.flightId in flights && !Classify(flights[rows[1..][j].state.flightId]).Corrupt?
        {
          assert rows[1..][j] == rows[j + 1];
        }
      }
      ReconcileCountsRunning(rows[1..], flights);
      ReconcileCountStep(rows, flights, RunningState);
      KeptStep(rows, flights);
      ReconciledRowRunning(rows[0], flights);
    }
  }

  /** Reconciliation leaves the number of NOT_TRIED rows as it was. */
  lemma {:induction false} ReconcileCountsNotTried(rows: seq<LoadFile>, flights: map<FlightId, FlightState>)
    ensures Count(Reconcile(rows, flights), NotTriedState) == Count(rows, NotTriedState)
  {
    if rows != [] {
      ReconcileCountsNotTried(rows[1..], flights);
      ReconcileCountStep(rows, flights, NotTriedState);
    }
  }

  /** Each failed flight adds one FAILED row. */
  lemma {:induction false} ReconcileCountsFailed(rows: seq<LoadFile>, flights: map<FlightId, FlightState>)
    ensures Count(Reconcile(rows, flights), FailedState)
         == Count(rows, FailedState) + FailedVerdicts(RunningLoads(rows), flights)
  {
    if rows != [] {
      ReconcileCountsFailed(rows[1..], flights);
      ReconcileCountStep(rows, flights, FailedState);
      FailedStep(rows, flights);
      ReconciledRowFailed(rows[0], flights);
    }
  }

  /** Reconciliation can complete when none of the RUNNING rows, taken in
      order, makes it throw. */
  lemma RunningReconcilable(rows: seq<LoadFile>, flights: map<FlightId, FlightState>)
    requires NoneThrowUpTo(RunningLoads(rows), |RunningLoads(rows)|, flights)
    ensures Reconcilable(rows, flights)
  {
    var loads := RunningLoads(rows);
    NoneThrowAll(loads, |loads|, flights);
    forall j | 0 <= j < |rows| && rows[j].state.Running?
      ensures !NeedsThrow(rows[j], flights)
    {
      assert rows[j] in loads;
    }
  }

  /** What getLoadCandidates reports about a reconciled table: the RUNNING
      count is the number of loads kept, the FAILED count adds the failed
      flights, the NOT_TRIED rows and so the candidates are as they were,
      no orphan is left, the RUNNING count does not grow, and the FAILED
      count does not shrink. */
  lemma ReconcileSummary(rows: seq<LoadFile>, flights: map<FlightId, FlightState>, n: int)
    requires DistinctPaths(rows) && Reconcilable(rows, flights)
    ensures var after := Reconcile(rows, flights);
      && Count(after, RunningState) == |Kept(RunningLoads(rows), flights)| <= Count(rows, RunningState)
      && Count(after, FailedState) == Count(rows, FailedState) + FailedVerdicts(RunningLoads(rows), flights)
      && Count(after, NotTriedState) == Count(rows, NotTriedState)
      && NoOrphans(after, flights)
      && DistinctPaths(FindCandidates(rows, n).candidateFiles)
      && forall x :: x in FindCandidates(rows, n).candidateFiles ==> x in after && x.state.NotTried?
  {
    ReconcileCountsRunning(rows, flights);
    ReconcileCountsNotTried(rows, flights);
    ReconcileCountsFailed(rows, flights);
    ReconcileKeeps(rows, flights);
  }

  /** A launch orphan: marked RUNNING, but its flight is unknown to the engine. */
  predicate Orphan(row: LoadFile, flights: map<FlightId, FlightState>) {
    row.state.Running? && row.state.flightId !in flights
  }

  predicate NoOrphans(rows: seq<LoadFile>, flights: map<FlightId, FlightState>) {
    forall j :: 0 <= j < |rows| ==> !Orphan(rows[j], flights)
  }

  /** Some row is an orphan. */
  predicate HasOrphan(rows: seq<LoadFile>, flights: map<FlightId, FlightState>) {
    exists j :: 0 <= j < |rows| && Orphan(rows[j], flights)
  }

  /** The table after checkForOrphans: orphans, and only they, are NOT_TRIED again. */
  function ResetOrphans(rows: seq<LoadFile>, flights: map<FlightId, FlightState>): (r: seq<LoadFile>)
    ensures |r| == |rows|
    ensures forall j :: 0 <= j < |rows| ==> r[j] == if Orphan(rows[j], flights) then rows[j].(state := NotTried) else rows[j]
    ensures NoOrphans(r, flights)
  {
    seq(|rows|, j requires 0 <= j < |rows| => if Orphan(rows[j], flights) then rows[j].(state := NotTried) else rows[j])
  }

  /** What checkForOrphans writes for one row. */
  function OrphanWrite(x: LoadFile, flights: map<FlightId, FlightState>): Option<LoadState> {
    if Orphan(x, flights) then Some(NotTried) else None
  }

  /** checkForOrphans as a per-row write. */
  function OrphanUpdate(flights: map<FlightId, FlightState>): LoadFile -> Option<LoadState> {
    x => OrphanWrite(x, flights)
  }

  /** One turn of the orphan pass. */
  lemma OrphanStep(rows: seq<LoadFile>, loads: seq<LoadFile>, k: nat, flights: map<FlightId, FlightState>)
    requires k < |loads|
    ensures ApplyEach(rows, loads, k + 1, OrphanUpdate(flights))
         == Write(ApplyEach(rows, loads, k, OrphanUpdate(flights)), loads[k], OrphanWrite(loads[k], flights))
  {
  }

  /** checkForOrphans is the pass over the RUNNING rows that resets each orphan. */
  lemma ResetByPass(rows: seq<LoadFile>, flights: map<FlightId, FlightState>)
    requires DistinctPaths(rows)
    ensures ApplyEach(rows, RunningLoads(rows), |RunningLoads(rows)|, OrphanUpdate(flights)) == ResetOrphans(rows, flights)
  {
    ApplyEachRunning(rows, OrphanUpdate(flights));
  }

  /** The target path of the file a submission loads. */
  function TargetOf(sub: Submission): string {
    sub.inputs.request.targetPath
  }

  /** No two submissions load the same target path. */
  predicate DistinctTargets(subs: seq<Submission>) {
    forall i, j :: 0 <= i < j < |subs| ==> TargetOf(subs[i]) != TargetOf(subs[j])
  }

  /** The ledger after the submissions `subs` have marked their rows RUNNING,
      in order. Keys stay where they were, and a row no submission names is
      left alone. */
  function MarkRunning(rows: seq<LoadFile>, subs: seq<Submission>): (r: seq<LoadFile>)
    ensures |r| == |rows|
    ensures forall j :: 0 <= j < |rows| ==> r[j].targetPath == rows[j].targetPath
  {
    if subs == [] then rows
    else
      var last := subs[|subs| - 1];
      SetState(MarkRunning(rows, subs[..|subs| - 1]), TargetOf(last), LoadState.Running(last.flightId))
  }

  /** One more submission marks one more row. */
  lemma MarkRunningSnoc(rows: seq<LoadFile>, subs: seq<Submission>, sub: Submission)
    ensures MarkRunning(rows, subs + [sub]) == SetState(MarkRunning(rows, subs), TargetOf(sub), LoadState.Running(sub.flightId))
  {
    assert (subs + [sub])[..|subs|] == subs;
  }

  /** A row no submission names is left alone. */
  lemma {:induction false} MarkRunningUntouched(rows: seq<LoadFile>, subs: seq<Submission>, j: nat)
    requires j < |rows| && forall i :: 0 <= i < |subs| ==> TargetOf(subs[i]) != rows[j].targetPath
    ensures MarkRunning(rows, subs)[j] == rows[j]
  {
    if subs != [] {
      MarkRunningUntouched(rows, subs[..|subs| - 1], j);
    }
  }

  /** `sub` loads the file of a NOT_TRIED row of `rows`. */
  predicate NamesNotTried(rows: seq<LoadFile>, sub: Submission) {
    exists j :: 0 <= j < |rows| && rows[j].targetPath == TargetOf(sub) && rows[j].state.NotTried?
  }

  /** The last of a launch's submissions names a NOT_TRIED row `j0` that the
      earlier ones left alone, and the earlier ones keep the preconditions. */
  lemma LastLaunched(rows: seq<LoadFile>, subs: seq<Submission>) returns (j0: nat)
    requires subs != [] && DistinctTargets(subs)
    requires forall i :: 0 <= i < |subs| ==> NamesNotTried(rows, subs[i])
    ensures var init := subs[..|subs| - 1];
      && DistinctTargets(init)
      && (forall i :: 0 <= i < |init| ==> NamesNotTried(rows, init[i]))
      && j0 < |rows| && rows[j0].targetPath == TargetOf(subs[|subs| - 1]) && rows[j0].state.NotTried?
      && MarkRunning(rows, init)[j0] == rows[j0]
  {
    var init := subs[..|subs| - 1];
    var last := subs[|subs| - 1];
    assert forall i :: 0 <= i < |init| ==> init[i] == subs[i];
    assert NamesNotTried(rows, last);
    j0 :| 0 <= j0 < |rows| && rows[j0].targetPath == TargetOf(last) && rows[j0].state.NotTried?;
    assert forall i :: 0 <= i < |init| ==> TargetOf(init[i]) != rows[j0].targetPath;
    MarkRunningUntouched(rows, init, j0);
  }

  /** Submissions for distinct NOT_TRIED rows move exactly that many rows
      from NOT_TRIED to RUNNING and leave the other counts as they were. */
  lemma {:induction false} MarkRunningCounts(rows: seq<LoadFile>, subs: seq<Submission>, k: BulkLoadFileState)
    requires DistinctPaths(rows) && DistinctTargets(subs)
    requires forall i :: 0 <= i < |subs| ==> NamesNotTried(rows, subs[i])
    ensures Count(MarkRunning(rows, subs), k) + (if k == NotTriedState then |subs| else 0)
         == Count(rows, k) + (if k == RunningState then |subs| else 0)
  {
    if subs != [] {
      var init := subs[..|subs| - 1];
      var j0 := LastLaunched(rows, subs);
      MarkRunningCounts(rows, init, k);
      CountSetState(MarkRunning(rows, init), j0, LoadState.Running(subs[|subs| - 1].flightId), k);
    }
  }

  /** Submissions whose flights are known leave no orphan behind. */
  lemma {:induction false} MarkRunningNoOrphans(rows: seq<LoadFile>, subs: seq<Submission>, flights: map<FlightId, FlightState>)
    requires NoOrphans(rows, flights)
    requires forall i :: 0 <= i < |subs| ==> subs[i].flightId in flights
    ensures NoOrphans(MarkRunning(rows, subs), flights)
  {
    if subs != [] {
      MarkRunningNoOrphans(rows, subs[..|subs| - 1], flights);
    }
  }

  /** The submissions of a launch are for distinct NOT_TRIED rows, so the
      counts move by the number launched. */
  lemma LaunchedCounts(rows: seq<LoadFile>, subs: seq<Submission>, loadFiles: seq<LoadFile>, n: nat)
    requires DistinctPaths(rows) && DistinctPaths(loadFiles) && |subs| == n <= |loadFiles|
    requires forall i :: 0 <= i < |loadFiles| ==> loadFiles[i] in rows && loadFiles[i].state.NotTried?
    requires forall t :: 0 <= t < |subs| ==> TargetOf(subs[t]) == loadFiles[t].targetPath
    ensures Count(MarkRunning(rows, subs), RunningState) == Count(rows, RunningState) + n
    ensures Count(MarkRunning(rows, subs), NotTriedState) + n == Count(rows, NotTriedState)
    ensures Count(MarkRunning(rows, subs), FailedState) == Count(rows, FailedState)
  {
    forall i | 0 <= i < |subs|
      ensures NamesNotTried(rows, subs[i])
    {
      assert loadFiles[i] in rows;
      var j :| 0 <= j < |rows| && rows[j] == loadFiles[i];
      assert rows[j].targetPath == TargetOf(subs[i]) && rows[j].state.NotTried?;
    }
    assert DistinctTargets(subs) by {
      forall i, j | 0 <= i < j < |subs|
        ensures TargetOf(subs[i]) != TargetOf(subs[j])
      {
        assert loadFiles[i].targetPath != loadFiles[j].targetPath;
      }
    }
    MarkRunningCounts(rows, subs, RunningState);
    MarkRunningCounts(rows, subs, NotTriedState);
    MarkRunningCounts(rows, subs, FailedState);
  }

  /** What a complete launch of `subs` for `loadFiles` does to the ledger. */
  lemma LaunchSummary(rows: seq<LoadFile>, subs: seq<Submission>, loadFiles: seq<LoadFile>,
                      flights0: map<FlightId, FlightState>, flights: map<FlightId, FlightState>)
    requires DistinctPaths(rows) && DistinctPaths(loadFiles) && |subs| <= |loadFiles|
    requires forall i :: 0 <= i < |loadFiles| ==> loadFiles[i] in rows && loadFiles[i].state.NotTried?
    requires forall t :: 0 <= t < |subs| ==> TargetOf(subs[t]) == loadFiles[t].targetPath && subs[t].flightId in flights
    requires flights0.Keys <= flights.Keys
    ensures var after := MarkRunning(rows, subs);
      && Count(after, RunningState) == Count(rows, RunningState) + |subs|
      && Count(after, NotTriedState) + |subs| == Count(rows, NotTriedState)
      && Count(after, FailedState) == Count(rows, FailedState)
      && (NoOrphans(rows, flights0) ==> NoOrphans(after, flights))
  {
    LaunchedCounts(rows, subs, loadFiles, |subs|);
    if NoOrphans(rows, flights0) {
      MarkRunningNoOrphans(rows, subs, flights);
    }
  }

  /** A row marked RUNNING with a flight the engine does not know is an orphan. */
  lemma LaunchOrphan(rows: seq<LoadFile>, subs: seq<Submission>, load: LoadFile, flightId: FlightId, flights: map<FlightId, FlightState>)
    requires load in rows && flightId !in flights
    ensures HasOrphan(SetState(MarkRunning(rows, subs), load.targetPath, LoadState.Running(flightId)), flights)
  {
    var j :| 0 <= j < |rows| && rows[j] == load;
    var after := SetState(MarkRunning(rows, subs), load.targetPath, LoadState.Running(flightId));
    assert 0 <= j < |after| && Orphan(after[j], flights);
  }

  /** The launch count: fill the budget, but no more than there are candidates.
      It never takes running loads above the budget, never exceeds the
      candidate list, and is zero when the budget is already used up. */
  function LaunchCount(running: nat, budget: int, candidateCount: nat): (n: nat)
    ensures n <= candidateCount
    ensures running < budget ==> running + n <= budget && (n == candidateCount || running + n == budget)
    ensures running >= budget ==> n == 0
  {
    if running < budget then (if candidateCount < budget - running then candidateCount else budget - running)
    else 0
  }

  /** A RUNNING row whose reconciliation throws. */
  predicate NeedsThrow(row: LoadFile, flights: map<FlightId, FlightState>) {
    row.state.Running? && (row.state.flightId !in flights || Classify(flights[row.state.flightId]).Corrupt?)
  }

  /** Reconciliation leaves NOT_TRIED rows in place and leaves no orphan. */
  lemma ReconcileKeeps(rows: seq<LoadFile>, flights: map<FlightId, FlightState>)
    requires Reconcilable(rows, flights)
    ensures forall x :: x in rows && x.state.NotTried? ==> x in Reconcile(rows, flights)
    ensures NoOrphans(Reconcile(rows, flights), flights)
  {
    forall x | x in rows && x.state.NotTried?
      ensures x in Reconcile(rows, flights)
    {
      var j :| 0 <= j < |rows| && rows[j] == x;
      assert Reconcile(rows, flights)[j] == x;
    }
  }

  /** What polling the ledger preserves from `before` to `after`: no
      orphans, the same NOT_TRIED count, no more RUNNING rows, and no fewer
      FAILED rows. */
  predicate KeptProgress(before: seq<LoadFile>, after: seq<LoadFile>, flights: map<FlightId, FlightState>) {
    && NoOrphans(after, flights)
    && Count(after, NotTriedState) == Count(before, NotTriedState)
    && Count(after, RunningState) <= Count(before, RunningState)
    && Count(after, FailedState) >= Count(before, FailedState)
  }

  /** How a wait ended. */
  datatype WaitOutcome = Woke | WaitStopped(error: StepError) | WaitTraceEnded

  /** How a run of doStep ended: with a step result (`drained` when the
      failure threshold stopped it), or still running when the trace of
      ticks ran out. */
  datatype DriverOutcome = Finished(result: StepResult, drained: bool) | Unfinished

  /** What the driver can observe at one moment: the ledger rows, the
      engine's flight table and submissions, the pod count, whether the
      queue accepts work, and the ticks still to come. */
  datatype Observed = Observed(rows: seq<LoadFile>, flights: map<FlightId, FlightState>, submitted: seq<Submission>,
                               podCount: int, queueAccepts: bool, ticks: seq<Tick>)

  /** One sleep: the next tick takes effect. */
  function AfterTick(o: Observed): Observed
    requires o.ticks != []
  {
    var t := o.ticks[0];
    o.(flights := Advance(o.flights, t.statusChanges), podCount := t.podCount,
       queueAccepts := t.queueAccepts, ticks := o.ticks[1..])
  }

  /** One poll: getLoadCandidates reconciles the ledger. */
  function Polled(o: Observed): Observed
    requires Reconcilable(o.rows, o.flights)
  {
    o.(rows := Reconcile(o.rows, o.flights))
  }

  /** How a wait ends, and what it leaves; after a stop the rows are those
      of a reconciliation that threw part-way and are not pinned. */
  datatype WaitEnd = EndWoke | EndStopped | EndTrace
  datatype WaitRun = WaitRun(end: WaitEnd, final: Observed)

  /** waitForAny: poll; return as soon as a poll sees fewer than
      `originallyRunning` loads running; otherwise sleep one tick and poll
      again. */
  ghost function WaitAnyRun(o: Observed, originallyRunning: int): WaitRun
    decreases |o.ticks|
  {
    if !Reconcilable(o.rows, o.flights) then WaitRun(EndStopped, o)
    else
      var p := Polled(o);
      if Count(p.rows, RunningState) < originallyRunning then WaitRun(EndWoke, p)
      else if p.ticks == [] then WaitRun(EndTrace, p)
      else WaitAnyRun(AfterTick(p), originallyRunning)
  }

  /** waitForAll: sleep one tick, then poll; return once a poll sees no load
      running. */
  ghost function WaitAllRun(o: Observed): WaitRun
    decreases |o.ticks|
  {
    if o.ticks == [] then WaitRun(EndTrace, o)
    else
      var a := AfterTick(o);
      if !Reconcilable(a.rows, a.flights) then WaitRun(EndStopped, a)
      else
        var p := Polled(a);
        if Count(p.rows, RunningState) == 0 then WaitRun(EndWoke, p)
        else WaitAllRun(p)
  }

  /** The ticks a wait consumes are a prefix of the trace. */
  predicate ConsumedPrefix(before: seq<Tick>, after: seq<Tick>) {
    |after| <= |before| && after == before[|before| - |after|..]
  }

  /** What waitForAny promises: it submits nothing and consumes ticks from
      the front of the trace, it wakes only when fewer than
      `originallyRunning` loads run, and it gives up only when the trace has
      ended with that many or more still running. It sleeps only after a
      poll: if the first poll already sees fewer loads running, no tick is
      consumed at all. */
  lemma WaitAnyRunShape(o: Observed, originallyRunning: int)
    ensures var run := WaitAnyRun(o, originallyRunning);
      && run.final.submitted == o.submitted
      && ConsumedPrefix(o.ticks, run.final.ticks)
      && run.final.flights.Keys == o.flights.Keys
      && (run.end == EndWoke ==> Count(run.final.rows, RunningState) < originallyRunning)
      && (run.end == EndTrace ==> run.final.ticks == [] && Count(run.final.rows, RunningState) >= originallyRunning)
      && (run.end == EndStopped ==> !Reconcilable(run.final.rows, run.final.flights))
  {
    WaitAnyRunFrame(o, originallyRunning);
    WaitAnyRunEnds(o, originallyRunning);
  }

  /** The frame of waitForAny: no submission, ticks taken from the front of
      the trace, and no flight forgotten. */
  lemma {:induction false} WaitAnyRunFrame(o: Observed, originallyRunning: int)
    ensures var run := WaitAnyRun(o, originallyRunning);
      && run.final.submitted == o.submitted
      && ConsumedPrefix(o.ticks, run.final.ticks)
      && run.final.flights.Keys == o.flights.Keys
    decreases |o.ticks|
  {
    if Reconcilable(o.rows, o.flights) {
      var p := Polled(o);
      if Count(p.rows, RunningState) >= originallyRunning && p.ticks != [] {
        var a := AfterTick(p);
        assert a.submitted == o.submitted && a.ticks == o.ticks[1..] && a.flights.Keys == o.flights.Keys;
        WaitAnyRunFrame(a, originallyRunning);
        var run := WaitAnyRun(a, originallyRunning);
        assert WaitAnyRun(o, originallyRunning) == run;
        assert o.ticks[1..][|o.ticks[1..]| - |run.final.ticks|..] == o.ticks[|o.ticks| - |run.final.ticks|..];
      }
    }
  }

  /** How waitForAny ends: woken with fewer than `originallyRunning` loads
      running, out of ticks with as many or more, or stopped by a ledger
      that does not reconcile. */
  lemma {:induction false} WaitAnyRunEnds(o: Observed, originallyRunning: int)
    ensures var run := WaitAnyRun(o, originallyRunning);
      && (run.end == EndWoke ==> Count(run.final.rows, RunningState) < originallyRunning)
      && (run.end == EndTrace ==> run.final.ticks == [] && Count(run.final.rows, RunningState) >= originallyRunning)
      && (run.end == EndStopped ==> !Reconcilable(run.final.rows, run.final.flights))
    decreases |o.ticks|
  {
    if Reconcilable(o.rows, o.flights) {
      var p := Polled(o);
      if Count(p.rows, RunningState) >= originallyRunning && p.ticks != [] {
        var a := AfterTick(p);
        assert a.ticks == o.ticks[1..];
        WaitAnyRunEnds(a, originallyRunning);
        assert WaitAnyRun(o, originallyRunning) == WaitAnyRun(a, originallyRunning);
      }
    }
  }

  /** waitForAny polls before it sleeps: when the first poll already sees
      fewer than `originallyRunning` loads running, the wait wakes at once,
      consuming no tick. */
  lemma WaitAnyPollsFirst(o: Observed, originallyRunning: int)
    requires Reconcilable(o.rows, o.flights) && Count(Reconcile(o.rows, o.flights), RunningState) < originallyRunning
    ensures WaitAnyRun(o, originallyRunning) == WaitRun(EndWoke, Polled(o))
    ensures WaitAnyRun(o, originallyRunning).final.ticks == o.ticks
  {
  }

  /** What waitForAll promises: it submits nothing, consumes ticks from the
      front of the trace, and wakes only once no load is running. */
  lemma {:induction false} WaitAllRunShape(o: Observed)
    ensures var run := WaitAllRun(o);
      && run.final.submitted == o.submitted
      && ConsumedPrefix(o.ticks, run.final.ticks)
      && run.final.flights.Keys == o.flights.Keys
      && (run.end == EndWoke ==> Count(run.final.rows, RunningState) == 0 && |run.final.ticks| < |o.ticks|)
      && (run.end == EndTrace ==> run.final.ticks == [])
      && (run.end == EndStopped ==> !Reconcilable(run.final.rows, run.final.flights))
    decreases |o.ticks|
  {
    if o.ticks != [] {
      var a := AfterTick(o);
      if Reconcilable(a.rows, a.flights) {
        var p := Polled(a);
        if Count(p.rows, RunningState) != 0 {
          WaitAllRunShape(p);
          var run := WaitAllRun(p);
          assert o.ticks[1..][|o.ticks[1..]| - |run.final.ticks|..] == o.ticks[|o.ticks| - |run.final.ticks|..];
        }
      }
    }
  }

  class IngestDriverStep {
    const ledger: LoadLedger
    const env: Environment
    const datasetId: string
    const loadTag: string
    const maxFailedFileLoads: int
    const profileId: string
    /** BUCKET_INFO from the driver flight's working map. */
    const bucketInfo: Option<Bucket>

    ghost predicate Valid()
      reads this, ledger, env
    {
      ledger.Valid() && env.Valid()
    }

    /** The ledger and the engine as the driver observes them now. */
    ghost function Observe(): Observed
      reads this, ledger, env
    {
      Observed(ledger.rows, env.flights, env.submitted, env.podCount, env.queueAccepts, env.ticks)
    }

    constructor (ledger: LoadLedger, env: Environment, datasetId: string, loadTag: string,
                 maxFailedFileLoads: int, profileId: string, bucketInfo: Option<Bucket>)
      ensures this.ledger == ledger && this.env == env && this.datasetId == datasetId
      ensures this.loadTag == loadTag && this.maxFailedFileLoads == maxFailedFileLoads
      ensures this.profileId == profileId && this.bucketInfo == bucketInfo
    {
      this.ledger := ledger;
      this.env := env;
      this.datasetId := datasetId;
      this.loadTag := loadTag;
      this.maxFailedFileLoads := maxFailedFileLoads;
      this.profileId := profileId;
      this.bucketInfo := bucketInfo;
    }

    /** The input parameters of the worker flight that loads `load`. */
    function InputsFor(load: LoadFile): WorkerInputs {
      WorkerInputs(
        datasetId,
        FileLoadModel(load.sourcePath, load.targetPath, load.mimeType, profileId, loadTag, load.description),
        bucketInfo)
    }

    /** undoStep: nothing to undo. */
    method UndoStep() returns (r: StepResult)
      ensures r == StepSuccess
    {
      r := StepSuccess;
    }

    /** checkForOrphans: every RUNNING row whose flight the engine does not
        know goes back to NOT_TRIED; every other row is left as it was. */
    method CheckForOrphans()
      requires Valid()
      modifies ledger
      ensures Valid()
      ensures ledger.rows == ResetOrphans(old(ledger.rows), env.flights)
    {
      ghost var rows0 := ledger.rows;
      ghost var flights := env.flights;
      var runningLoads := ledger.FindRunningLoads();
      var k := 0;
      while k < |runningLoads|
        invariant 0 <= k <= |runningLoads|
        invariant ledger.Valid() && env.flights == flights
        invariant ledger.rows == ApplyEach(rows0, runningLoads, k, OrphanUpdate(flights))
      {
        assert runningLoads[k] in runningLoads;
        ResetIfOrphan(runningLoads[k]);
        OrphanStep(rows0, runningLoads, k, flights);
        k := k + 1;
      }
      ResetByPass(rows0, flights);
    }

    /** One turn of checkForOrphans: the row of a RUNNING load whose flight
        the engine does not know goes back to NOT_TRIED. */
    method ResetIfOrphan(load: LoadFile)
      requires Valid() && load.state.Running?
      modifies ledger
      ensures Valid()
      ensures ledger.rows == Write(old(ledger.rows), load, OrphanWrite(load, env.flights))
    {
      var fs := env.GetFlightState(load.state.flightId);
      if fs.None? {
        ledger.SetLoadFileState(load.targetPath, NotTried);
      }
    }

    /** One turn of launchLoads: a fresh flight id, the row marked RUNNING
        with it, then the submission of the worker flight. */
    method LaunchOne(load: LoadFile) returns (flightId: FlightId, ok: bool)
      requires Valid()
      modifies ledger, env`nextFlightId, env`flights, env`submitted
      ensures Valid()
      ensures flightId !in old(env.flights)
      ensures ledger.rows == SetState(old(ledger.rows), load.targetPath, LoadState.Running(flightId))
      ensures ok ==> env.submitted == old(env.submitted) + [Submission(flightId, InputsFor(load))]
      ensures ok ==> env.flights == old(env.flights)[flightId := QueuedFlight]
      ensures !ok ==> env.submitted == old(env.submitted) && env.flights == old(env.flights)
    {
      flightId := env.CreateFlightId();
      ledger.SetLoadFileState(load.targetPath, LoadState.Running(flightId));
      ok := env.SubmitToQueue(flightId, InputsFor(load));
    }

    /** launchLoads: for each of the first `launchCount` candidates in turn,
        draw a fresh flight id, mark the row RUNNING with it, then submit
        the worker flight. A failed submission stops the launch and leaves
        the row just marked as an orphan. */
    method LaunchLoads(launchCount: nat, loadFiles: seq<LoadFile>) returns (ok: bool, ghost launched: seq<Submission>)
      requires Valid() && launchCount <= |loadFiles|
      requires DistinctPaths(loadFiles)
      requires forall i :: 0 <= i < |loadFiles| ==> loadFiles[i] in ledger.rows && loadFiles[i].state.NotTried?
      modifies ledger, env`nextFlightId, env`flights, env`submitted
      ensures Valid()
      ensures env.submitted == old(env.submitted) + launched
      ensures |launched| <= launchCount && (ok ==> |launched| == launchCount)
      ensures forall t :: 0 <= t < |launched| ==> launched[t].inputs == InputsFor(loadFiles[t])
      ensures forall t :: 0 <= t < |launched| ==> launched[t].flightId !in old(env.flights) && launched[t].flightId in env.flights
      ensures old(env.flights).Keys <= env.flights.Keys
      ensures ok ==> ledger.rows == MarkRunning(old(ledger.rows), launched)
      ensures ok ==> Count(ledger.rows, RunningState) == Count(old(ledger.rows), RunningState) + launchCount
      ensures ok ==> Count(ledger.rows, NotTriedState) + launchCount == Count(old(ledger.rows), NotTriedState)
      ensures ok ==> Count(ledger.rows, FailedState) == Count(old(ledger.rows), FailedState)
      ensures ok && NoOrphans(old(ledger.rows), old(env.flights)) ==> NoOrphans(ledger.rows, env.flights)
      ensures !ok ==> HasOrphan(ledger.rows, env.flights)
    {
      ghost var rows0 := ledger.rows;
      ghost var flights0 := env.flights;
      ok, launched := LaunchEach(launchCount, loadFiles);
      if ok {
        LaunchSummary(rows0, launched, loadFiles, flights0, env.flights);
      }
    }

    /** The loop of launchLoads, one candidate after the other. */
    method LaunchEach(launchCount: nat, loadFiles: seq<LoadFile>) returns (ok: bool, ghost launched: seq<Submission>)
      requires Valid() && launchCount <= |loadFiles|
      requires forall i :: 0 <= i < |loadFiles| ==> loadFiles[i] in ledger.rows
      modifies ledger, env`nextFlightId, env`flights, env`submitted
      ensures Valid()
      ensures env.submitted == old(env.submitted) + launched
      ensures |launched| <= launchCount && (ok ==> |launched| == launchCount)
      ensures forall t :: 0 <= t < |launched| ==> launched[t].inputs == InputsFor(loadFiles[t])
      ensures forall t :: 0 <= t < |launched| ==> launched[t].flightId !in old(env.flights) && launched[t].flightId in env.flights
      ensures old(env.flights).Keys <= env.flights.Keys
      ensures ok ==> ledger.rows == MarkRunning(old(ledger.rows), launched)
      ensures !ok ==> HasOrphan(ledger.rows, env.flights)
    {
      ghost var rows0 := ledger.rows;
      ghost var flights0 := env.flights;
      launched := [];
      var i := 0;
      while i < launchCount
        invariant 0 <= i <= launchCount && |launched| == i
        invariant Valid()
        invariant env.submitted == old(env.submitted) + launched
        invariant forall t :: 0 <= t < i ==> launched[t].inputs == InputsFor(loadFiles[t])
        invariant forall t :: 0 <= t < i ==> launched[t].flightId !in flights0 && launched[t].flightId in env.flights
        invariant flights0.Keys <= env.flights.Keys
        invariant ledger.rows == MarkRunning(rows0, launched)
      {
        var load := loadFiles[i];
        var flightId, submitted := LaunchOne(load);
        if !submitted {
          ok := false;
          LaunchOrphan(rows0, launched, load, flightId, env.flights);
          return;
        }
        ghost var sub := Submission(flightId, InputsFor(load));
        ghost var prev := launched;
        MarkRunningSnoc(rows0, prev, sub);
        launched := prev + [sub];
        forall t | 0 <= t < |launched|
          ensures launched[t].inputs == InputsFor(loadFiles[t])
          ensures launched[t].flightId !in flights0 && launched[t].flightId in env.flights
        {
          if t < |prev| {
            assert launched[t] == prev[t];
          }
        }
        i := i + 1;
      }
      ok := true;
    }

    /** One pass of the switch in getLoadCandidates: the flight's verdict,
        recorded in the ledger for a failed or succeeded flight. */
    method ReconcileLoad(load: LoadFile) returns (r: Result<Verdict, StepError>)
      requires Valid() && load.state.Running?
      modifies ledger
      ensures Valid()
      ensures r.Ok? <==> !NeedsThrow(load, env.flights)
      ensures r.Ok? ==> VerdictOf(load, env.flights) == Some(r.value)
      ensures r.Ok? ==> (r.value.StillRunning? <==> Keeps(load, env.flights))
      ensures r.Ok? ==> (r.value.LoadFailed? <==> Fails(load, env.flights))
      ensures r.Ok? ==> ledger.rows == Write(old(ledger.rows), load, Recorded(load, env.flights))
      ensures r.Err? ==> BlocksReconciliation(load, env.flights, r.error)
    {
      var fs := env.GetFlightState(load.state.flightId);
      if fs.None? {
        return Err(FlightNotFound(load.state.flightId));
      }
      var v := Classify(fs.value);
      match v {
        case StillRunning =>
        case LoadFailed(e) =>
          ledger.SetLoadFileState(load.targetPath, Failed(e));
        case LoadSucceeded(id, info) =>
          ledger.SetLoadFileState(load.targetPath, Succeeded(id, info));
        case Corrupt(e) =>
          return Err(e);
      }
      r := Ok(v);
    }

    /** The loop of getLoadCandidates over the RUNNING rows `loads`: each
        is reconciled in turn; the result is the loads still running and the
        number that failed, or the first exception. */
    method ReconcileEach(loads: seq<LoadFile>) returns (r: Result<(seq<LoadFile>, nat), StepError>)
      requires Valid() && forall i :: 0 <= i < |loads| ==> loads[i].state.Running?
      modifies ledger
      ensures Valid()
      ensures r.Ok? <==> NoneThrowUpTo(loads, |loads|, env.flights)
      ensures r.Ok? ==> ledger.rows == ApplyEach(old(ledger.rows), loads, |loads|, RecordedUpdate(env.flights))
      ensures r.Ok? ==> r.value == (Kept(loads, env.flights), FailedVerdicts(loads, env.flights))
      ensures r.Err? ==> exists i :: 0 <= i < |loads| && BlocksReconciliation(loads[i], env.flights, r.error)
    {
      ghost var rows0 := ledger.rows;
      ghost var flights := env.flights;
      var realRunningLoads: seq<LoadFile> := [];
      var failures := 0;
      var k := 0;
      while k < |loads|
        invariant 0 <= k <= |loads|
        invariant ledger.Valid() && env.flights == flights
        invariant ledger.rows == ApplyEach(rows0, loads, k, RecordedUpdate(flights))
        invariant NoneThrowUpTo(loads, k, flights)
        invariant realRunningLoads == KeptUpTo(loads, k, flights)
        invariant failures == FailedUpTo(loads, k, flights)
      {
        var v := ReconcileLoad(loads[k]);
        if v.Err? {
          NoneThrowPrefix(loads, k, |loads|, flights);
          return Err(v.error);
        }
        ReconcileStep(rows0, loads, k, flights, v.value);
        if v.value.StillRunning? {
          realRunningLoads := realRunningLoads + [loads[k]];
        } else if v.value.LoadFailed? {
          failures := failures + 1;
        }
        k := k + 1;
      }
      r := Ok((realRunningLoads, failures));
    }

    /** getLoadCandidates: reconciles every RUNNING row with its flight's
        state; the result lists the rows still running, the first `n`
        NOT_TRIED rows, and the FAILED count including the failures just
        recorded. It throws for a flight the engine does not know and for a
        state the switch does not accept. */
    method GetLoadCandidates(n: int) returns (r: Result<LoadCandidates, StepError>)
      requires Valid()
      modifies ledger
      ensures Valid()
      ensures r.Ok? <==> Reconcilable(old(ledger.rows), env.flights)
      ensures r.Ok? ==> ledger.rows == Reconcile(old(ledger.rows), env.flights)
      ensures r.Ok? ==> r.value.runningLoads == Kept(RunningLoads(old(ledger.rows)), env.flights)
      ensures r.Ok? ==> r.value.candidateFiles == FindCandidates(old(ledger.rows), n).candidateFiles
      ensures r.Ok? ==> r.value.failedLoads == Count(old(ledger.rows), FailedState) + FailedVerdicts(RunningLoads(old(ledger.rows)), env.flights)
      ensures r.Ok? ==> Count(ledger.rows, RunningState) == |r.value.runningLoads|
      ensures r.Ok? ==> Count(ledger.rows, FailedState) == r.value.failedLoads
      ensures r.Ok? ==> Count(ledger.rows, NotTriedState) == Count(old(ledger.rows), NotTriedState)
      ensures r.Ok? ==> NoOrphans(ledger.rows, env.flights)
      ensures r.Ok? ==> DistinctPaths(r.value.candidateFiles)
      ensures r.Ok? ==> forall x :: x in r.value.candidateFiles ==> x in ledger.rows && x.state.NotTried?
      ensures r.Ok? ==> Count(ledger.rows, RunningState) <= Count(old(ledger.rows), RunningState)
      ensures r.Ok? ==> Count(ledger.rows, FailedState) >= Count(old(ledger.rows), FailedState)
      ensures r.Err? ==> exists j :: 0 <= j < |old(ledger.rows)| && BlocksReconciliation(old(ledger.rows)[j], env.flights, r.error)
      ensures r.Err? ==> ThrownBy(r.error, old(ledger.rows), env.flights)
    {
      ghost var rows0 := ledger.rows;
      var candidates := ledger.FindLoadCandidates(n);
      ghost var flights := env.flights;
      var runningLoads := candidates.runningLoads;
      forall i | 0 <= i < |runningLoads|
        ensures runningLoads[i].state.Running? && runningLoads[i] in rows0
      {
        assert runningLoads[i] in runningLoads;
      }
      var reconciled := ReconcileEach(runningLoads);
      if reconciled.Err? {
        RunningLoadBlocks(rows0, flights, reconciled.error);
        return Err(reconciled.error);
      }
      var (realRunningLoads, failures) := reconciled.value;
      ReconcileByPass(rows0, flights);
      RunningReconcilable(rows0, flights);
      ReconcileSummary(rows0, flights, n);
      r := Ok(LoadCandidates(realRunningLoads, candidates.candidateFiles, candidates.failedLoads + failures));
    }

    /** waitForAny: poll first, and wait only while no load has finished
        since the launch, i.e. while `originallyRunning` loads or more are
        still running. */
    method WaitForAny(concurrentLoads: int, originallyRunning: int) returns (w: WaitOutcome)
      requires Valid() && NoOrphans(ledger.rows, env.flights)
      modifies ledger, env`flights, env`podCount, env`queueAccepts, env`ticks
      ensures Valid()
      ensures w.WaitStopped? ==> w.error.FileSystemCorrupt? || w.error.CorruptMetadata?
      ensures !w.WaitStopped? ==> KeptProgress(old(ledger.rows), ledger.rows, env.flights)
      ensures w.Woke? ==> Count(ledger.rows, RunningState) < originallyRunning
      ensures w.WaitTraceEnded? ==> env.ticks == []
      ensures var run := WaitAnyRun(old(Observe()), originallyRunning);
        && (w.Woke? <==> run.end == EndWoke)
        && (w.WaitStopped? <==> run.end == EndStopped)
        && (w.WaitTraceEnded? <==> run.end == EndTrace)
        && Observe().(rows := run.final.rows) == run.final
        && (!w.WaitStopped? ==> ledger.rows == run.final.rows)
    {
      ghost var rows0 := ledger.rows;
      ghost var run := WaitAnyRun(Observe(), originallyRunning);
      while true
        invariant Valid() && KeptProgress(rows0, ledger.rows, env.flights)
        invariant WaitAnyRun(Observe(), originallyRunning) == run
        decreases |env.ticks|
      {
        ghost var o := Observe();
        var candidates := GetLoadCandidates(concurrentLoads);
        if candidates.Err? {
          assert Observe().(rows := o.rows) == o;
          return WaitStopped(candidates.error);
        }
        assert Observe() == Polled(o);
        if |candidates.value.runningLoads| < originallyRunning {
          return Woke;
        }
        var awake := env.Sleep();
        if !awake {
          return WaitTraceEnded;
        }
        assert Observe() == AfterTick(Polled(o));
      }
    }

    /** waitForAll: wait, then poll, until no load is running. */
    method WaitForAll(concurrentLoads: int) returns (w: WaitOutcome)
      requires Valid() && NoOrphans(ledger.rows, env.flights)
      modifies ledger, env`flights, env`podCount, env`queueAccepts, env`ticks
      ensures Valid()
      ensures w.WaitStopped? ==> w.error.FileSystemCorrupt? || w.error.CorruptMetadata?
      ensures !w.WaitStopped? ==> KeptProgress(old(ledger.rows), ledger.rows, env.flights)
      ensures w.Woke? ==> Count(ledger.rows, RunningState) == 0
      ensures w.WaitTraceEnded? ==> env.ticks == []
      ensures var run := WaitAllRun(old(Observe()));
        && (w.Woke? <==> run.end == EndWoke)
        && (w.WaitStopped? <==> run.end == EndStopped)
        && (w.WaitTraceEnded? <==> run.end == EndTrace)
        && Observe().(rows := run.final.rows) == run.final
        && (!w.WaitStopped? ==> ledger.rows == run.final.rows)
    {
      ghost var rows0 := ledger.rows;
      ghost var run := WaitAllRun(Observe());
      while true
        invariant Valid() && KeptProgress(rows0, ledger.rows, env.flights)
        invariant WaitAllRun(Observe()) == run
        decreases |env.ticks|
      {
        ghost var o := Observe();
        var awake := env.Sleep();
        if !awake {
          return WaitTraceEnded;
        }
        ghost var a := AfterTick(o);
        assert Observe() == a;
        var candidates := GetLoadCandidates(concurrentLoads);
        if candidates.Err? {
          assert Observe().(rows := a.rows) == a;
          return WaitStopped(candidates.error);
        }
        assert Observe() == Polled(a);
        if |candidates.value.runningLoads| == 0 {
          return Woke;
        }
      }
    }

    /** What an outcome of doStep says about the final state: a normal exit
        has nothing running and nothing left to launch within the budget; a
        drained exit follows too many failures and has nothing running; a
        FAILURE_RETRY comes from a failed submission, which leaves an orphan;
        a thrown exception is one of the switch's two corrupt-state
        exceptions; and an unfinished run has used up every tick. */
    ghost predicate Concluded(r: DriverOutcome)
      reads this, ledger, env
    {
      && (r == Finished(StepSuccess, false) ==>
            && Count(ledger.rows, RunningState) == 0
            && (Count(ledger.rows, NotTriedState) == 0 || env.podCount * env.concurrentFiles <= 0))
      && (r.Finished? && r.drained ==>
            && r.result == StepSuccess
            && maxFailedFileLoads != -1 && Count(ledger.rows, FailedState) > maxFailedFileLoads
            && Count(ledger.rows, RunningState) == 0)
      && (r.Finished? && r.result == StepSuccess ==> NoOrphans(ledger.rows, env.flights))
      && (r.Finished? && r.result.StepFailureRetry? ==>
            r.result.error == StairwayExecution && HasOrphan(ledger.rows, env.flights))
      && (r.Finished? && r.result.StepThrew? ==> r.result.error.FileSystemCorrupt? || r.result.error.CorruptMetadata?)
      && (r.Unfinished? ==> env.ticks == [])
    }

    /** One pass of the load loop, from what the driver observes at its
        start (`s`) to what it leaves (`s'`), with `r` the step's outcome
        when the pass ends the step; `concurrentFiles` is
        LOAD_CONCURRENT_FILES. The pass polls with the budget
        podCount * concurrentFiles. If the poll throws, the step throws
        and nothing else changes. Otherwise the step ends normally exactly
        when no load is running and no candidate is left, and then only the
        poll has happened. Past the failure threshold the driver launches
        nothing, waits for every running load, and ends drained, or ends
        when that wait throws or outlasts the trace. Otherwise it submits,
        in order, one flight for each of the first LaunchCount candidates
        (fewer only when a submission fails), and the loop goes on only
        once fewer loads run than right after the launch. */
    ghost predicate TurnRel(s: Observed, s': Observed, r: Option<DriverOutcome>, concurrentFiles: int) {
      var budget := s.podCount * concurrentFiles;
      var candidates := FirstCandidates(s.rows, budget);
      if !Reconcilable(s.rows, s.flights) then
        && r.Some? && r.value.Finished? && r.value.result.StepThrew? && !r.value.drained
        && s'.(rows := s.rows) == s
      else
        var polled := Polled(s);
        if Count(polled.rows, RunningState) == 0 && |candidates| == 0 then
          r == Some(Finished(StepSuccess, false)) && s' == polled
        else if maxFailedFileLoads != -1 && Count(polled.rows, FailedState) > maxFailedFileLoads then
          DrainTurn(polled, s', r)
        else
          LaunchTurn(polled, s', r, candidates, budget)
    }

    /** The drain: nothing is submitted, the driver waits for every running
        load (`WaitAllRun`), and the step ends drained, or with the wait's
        exception, or unfinished when the trace runs out. */
    ghost predicate DrainTurn(polled: Observed, s': Observed, r: Option<DriverOutcome>) {
      var run := WaitAllRun(polled);
      && r.Some? && s'.submitted == polled.submitted
      && (run.end == EndWoke ==> r == Some(Finished(StepSuccess, true)))
      && (run.end == EndTrace ==> r == Some(Unfinished))
      && (run.end == EndStopped ==> r.value.Finished? && r.value.result.StepThrew? && !r.value.drained)
      && s'.(rows := run.final.rows) == run.final
      && (run.end != EndStopped ==> s'.rows == run.final.rows)
    }

    /** The launch: one flight per candidate, in order, for the first
        LaunchCount candidates (fewer only when a submission fails and the
        step ends with FAILURE_RETRY); the loop goes on only once fewer loads
        run than right after the launch. */
    ghost predicate LaunchTurn(polled: Observed, s': Observed, r: Option<DriverOutcome>, candidates: seq<LoadFile>, budget: int) {
      var running := Count(polled.rows, RunningState);
      var launchCount := LaunchCount(running, budget, |candidates|);
      var before := polled.submitted;
      && (r.Some? ==> r.value.Unfinished? || (r.value.Finished? && !r.value.drained && r.value.result != StepSuccess))
      && |before| <= |s'.submitted| <= |before| + launchCount
      && s'.submitted[..|before|] == before
      && (forall t :: |before| <= t < |s'.submitted| ==> s'.submitted[t].inputs == InputsFor(candidates[t - |before|]))
      && (r == Some(Finished(StepFailureRetry(StairwayExecution), false)) || |s'.submitted| == |before| + launchCount)
      && (r.None? ==> Count(s'.rows, RunningState) < running + launchCount)
    }

    /** The four ways a pass can go, one lemma each: the poll throws, the
        exit, the drain, the launch. */
    lemma TurnByThrow(s: Observed, s': Observed, e: StepError, concurrentFiles: int)
      requires !Reconcilable(s.rows, s.flights) && s'.(rows := s.rows) == s
      ensures TurnRel(s, s', Some(Finished(StepThrew(e), false)), concurrentFiles)
    {
    }

    lemma TurnByExit(s: Observed, concurrentFiles: int)
      requires Reconcilable(s.rows, s.flights)
      requires Count(Reconcile(s.rows, s.flights), RunningState) == 0
      requires |FirstCandidates(s.rows, s.podCount * concurrentFiles)| == 0
      ensures TurnRel(s, Polled(s), Some(Finished(StepSuccess, false)), concurrentFiles)
    {
    }

    lemma TurnByDrain(s: Observed, s': Observed, r: Option<DriverOutcome>, concurrentFiles: int)
      requires Reconcilable(s.rows, s.flights)
      requires !(Count(Reconcile(s.rows, s.flights), RunningState) == 0 && |FirstCandidates(s.rows, s.podCount * concurrentFiles)| == 0)
      requires maxFailedFileLoads != -1 && Count(Reconcile(s.rows, s.flights), FailedState) > maxFailedFileLoads
      requires DrainTurn(Polled(s), s', r)
      ensures TurnRel(s, s', r, concurrentFiles)
    {
    }

    lemma TurnByLaunch(s: Observed, s': Observed, r: Option<DriverOutcome>, concurrentFiles: int)
      requires Reconcilable(s.rows, s.flights)
      requires !(Count(Reconcile(s.rows, s.flights), RunningState) == 0 && |FirstCandidates(s.rows, s.podCount * concurrentFiles)| == 0)
      requires !(maxFailedFileLoads != -1 && Count(Reconcile(s.rows, s.flights), FailedState) > maxFailedFileLoads)
      requires LaunchTurn(Polled(s), s', r, FirstCandidates(s.rows, s.podCount * concurrentFiles), s.podCount * concurrentFiles)
      ensures TurnRel(s, s', r, concurrentFiles)
    {
    }

    /** What LaunchAndWait promises, as `LaunchTurn`. */
    lemma LaunchTurnOf(polled: Observed, s': Observed, r: Option<DriverOutcome>, candidates: seq<LoadFile>, budget: int,
                       launched: seq<Submission>)
      requires s'.submitted == polled.submitted + launched
      requires |launched| <= LaunchCount(Count(polled.rows, RunningState), budget, |candidates|)
      requires r == Some(Finished(StepFailureRetry(StairwayExecution), false)) ||
        |launched| == LaunchCount(Count(polled.rows, RunningState), budget, |candidates|)
      requires forall t :: 0 <= t < |launched| ==> launched[t].inputs == InputsFor(candidates[t])
      requires r.None? ==> Count(s'.rows, RunningState) < Count(polled.rows, RunningState) + LaunchCount(Count(polled.rows, RunningState), budget, |candidates|)
      requires r.Some? ==> r.value.Unfinished? || (r.value.Finished? && !r.value.drained && r.value.result != StepSuccess)
      ensures LaunchTurn(polled, s', r, candidates, budget)
    {
      var before := polled.submitted;
      assert s'.submitted[..|before|] == before;
      forall t | |before| <= t < |s'.submitted|
        ensures s'.submitted[t].inputs == InputsFor(candidates[t - |before|])
      {
        assert s'.submitted[t] == launched[t - |before|];
      }
    }

    /** A pass ends the step normally exactly when its poll succeeds and
        finds no load running and no candidate left. */
    lemma TurnExitsNormally(s: Observed, s': Observed, r: Option<DriverOutcome>, concurrentFiles: int)
      requires TurnRel(s, s', r, concurrentFiles)
      ensures r == Some(Finished(StepSuccess, false)) <==>
        && Reconcilable(s.rows, s.flights)
        && Count(Reconcile(s.rows, s.flights), RunningState) == 0
        && |FirstCandidates(s.rows, s.podCount * concurrentFiles)| == 0
    {
    }

    /** Past the failure threshold a pass submits nothing; a drained end
        happens only past it, with nothing left running. */
    lemma TurnDrains(s: Observed, s': Observed, r: Option<DriverOutcome>, concurrentFiles: int)
      requires TurnRel(s, s', r, concurrentFiles)
      ensures Reconcilable(s.rows, s.flights) && maxFailedFileLoads != -1 &&
              Count(Reconcile(s.rows, s.flights), FailedState) > maxFailedFileLoads ==>
        s'.submitted == s.submitted && r.Some?
      ensures r.Some? && r.value.Finished? && r.value.drained ==>
        && Reconcilable(s.rows, s.flights)
        && maxFailedFileLoads != -1 && Count(Reconcile(s.rows, s.flights), FailedState) > maxFailedFileLoads
        && Count(s'.rows, RunningState) == 0
    {
      if Reconcilable(s.rows, s.flights) {
        var p := Polled(s);
        if !(Count(p.rows, RunningState) == 0 && |FirstCandidates(s.rows, s.podCount * concurrentFiles)| == 0)
          && maxFailedFileLoads != -1 && Count(p.rows, FailedState) > maxFailedFileLoads {
          WaitAllRunShape(p);
        }
      }
    }

    /** Below the failure threshold, a pass that does not end the step has
        submitted exactly LaunchCount flights, for the first candidates in
        order: min(candidates, budget - running) when running is below the
        budget, none otherwise. */
    lemma TurnLaunches(s: Observed, s': Observed, concurrentFiles: int)
      requires TurnRel(s, s', None, concurrentFiles)
      ensures Reconcilable(s.rows, s.flights)
      ensures var running := Count(Reconcile(s.rows, s.flights), RunningState);
        var budget := s.podCount * concurrentFiles;
        var candidates := FirstCandidates(s.rows, budget);
        && |s'.submitted| == |s.submitted| + LaunchCount(running, budget, |candidates|)
        && s'.submitted[..|s.submitted|] == s.submitted
        && (forall t :: 0 <= t < LaunchCount(running, budget, |candidates|) ==>
              s'.submitted[|s.submitted| + t].inputs == InputsFor(candidates[t]))
        && Count(s'.rows, RunningState) < running + LaunchCount(running, budget, |candidates|)
    {
      var running := Count(Reconcile(s.rows, s.flights), RunningState);
      var budget := s.podCount * concurrentFiles;
      var candidates := FirstCandidates(s.rows, budget);
      forall t | 0 <= t < LaunchCount(running, budget, |candidates|)
        ensures s'.submitted[|s.submitted| + t].inputs == InputsFor(candidates[t])
      {
        assert candidates[(|s.submitted| + t) - |s.submitted|] == candidates[t];
      }
    }

    /** One pass of the load loop of doStep: either the step ends, with the
        outcome, or some load has finished and the loop goes on with fewer
        loads pending; what the pass does is `TurnRel`. */
    method LoadLoopTurn() returns (r: Option<DriverOutcome>)
      requires Valid() && NoOrphans(ledger.rows, env.flights)
      modifies ledger, env`nextFlightId, env`flights, env`submitted, env`podCount, env`queueAccepts, env`ticks
      ensures Valid()
      ensures TurnRel(old(Observe()), Observe(), r, env.concurrentFiles)
      ensures r.Some? ==> Concluded(r.value)
      ensures r.None? ==> NoOrphans(ledger.rows, env.flights) && Pending(ledger.rows) < old(Pending(ledger.rows))
    {
      ghost var s := Observe();
      var podCount := env.GetActivePodCount();
      var concurrentFiles := env.concurrentFiles;
      var scaledConcurrentFiles := podCount * concurrentFiles;
      var c := GetLoadCandidates(scaledConcurrentFiles);
      if c.Err? {
        assert Observe().(rows := s.rows) == s;
        TurnByThrow(s, Observe(), c.error, concurrentFiles);
        return Some(Finished(StepThrew(c.error), false));
      }
      ghost var polled := Observe();
      assert polled == Polled(s);
      var candidates := c.value;
      var currentRunning := |candidates.runningLoads|;
      var candidateCount := |candidates.candidateFiles|;
      if currentRunning == 0 && candidateCount == 0 {
        TurnByExit(s, concurrentFiles);
        return Some(Finished(StepSuccess, false));
      }
      if maxFailedFileLoads != -1 && candidates.failedLoads > maxFailedFileLoads {
        r := DrainLoads(scaledConcurrentFiles);
        TurnByDrain(s, Observe(), r, concurrentFiles);
        return;
      }
      ghost var launched;
      r, launched := LaunchAndWait(scaledConcurrentFiles, currentRunning, candidates.candidateFiles);
      LaunchTurnOf(polled, Observe(), r, candidates.candidateFiles, scaledConcurrentFiles, launched);
      TurnByLaunch(s, Observe(), r, concurrentFiles);
    }

    /** The drain of a pass of the load loop, once more loads have failed
        than maxFailedFileLoads allows: launch nothing, wait for every
        running load, and end the step. */
    method DrainLoads(scaledConcurrentFiles: int) returns (r: Option<DriverOutcome>)
      requires Valid() && NoOrphans(ledger.rows, env.flights)
      requires maxFailedFileLoads != -1 && Count(ledger.rows, FailedState) > maxFailedFileLoads
      modifies ledger, env`flights, env`podCount, env`queueAccepts, env`ticks
      ensures Valid()
      ensures DrainTurn(old(Observe()), Observe(), r)
      ensures r.Some? && Concluded(r.value)
    {
      var w := WaitForAll(scaledConcurrentFiles);
      match w {
        case Woke => r := Some(Finished(StepSuccess, true));
        case WaitStopped(e) => r := Some(Finished(StepThrew(e), false));
        case WaitTraceEnded => r := Some(Unfinished);
      }
    }

    /** The second half of a pass of the load loop: launch up to the budget
        `scaledConcurrentFiles` of running loads from the candidates, then
        wait for one of the running loads to finish. Exactly LaunchCount
        flights are submitted, for the first candidates in order, unless a
        submission fails. */
    method LaunchAndWait(scaledConcurrentFiles: int, currentRunning: nat, candidateFiles: seq<LoadFile>)
        returns (r: Option<DriverOutcome>, ghost launched: seq<Submission>)
      requires Valid() && NoOrphans(ledger.rows, env.flights)
      requires currentRunning == Count(ledger.rows, RunningState)
      requires DistinctPaths(candidateFiles)
      requires forall x :: x in candidateFiles ==> x in ledger.rows && x.state.NotTried?
      modifies ledger, env`nextFlightId, env`flights, env`submitted, env`podCount, env`queueAccepts, env`ticks
      ensures Valid()
      ensures env.submitted == old(env.submitted) + launched
      ensures |launched| <= LaunchCount(currentRunning, scaledConcurrentFiles, |candidateFiles|)
      ensures r == Some(Finished(StepFailureRetry(StairwayExecution), false)) ||
        |launched| == LaunchCount(currentRunning, scaledConcurrentFiles, |candidateFiles|)
      ensures forall t :: 0 <= t < |launched| ==> launched[t].inputs == InputsFor(candidateFiles[t])
      ensures r.None? ==> Count(ledger.rows, RunningState) < currentRunning + LaunchCount(currentRunning, scaledConcurrentFiles, |candidateFiles|)
      ensures r.Some? ==> r.value.Unfinished? || (r.value.Finished? && !r.value.drained && r.value.result != StepSuccess)
      ensures r.Some? ==> Concluded(r.value)
      ensures r.None? ==> NoOrphans(ledger.rows, env.flights) && Pending(ledger.rows) < old(Pending(ledger.rows))
    {
      var running := currentRunning;
      var candidateCount := |candidateFiles|;
      launched := [];
      if currentRunning < scaledConcurrentFiles {
        var launchCount := scaledConcurrentFiles - currentRunning;
        if candidateCount < launchCount {
          launchCount := candidateCount;
        }
        assert launchCount == LaunchCount(currentRunning, scaledConcurrentFiles, candidateCount);
        forall i | 0 <= i < |candidateFiles|
          ensures candidateFiles[i] in ledger.rows && candidateFiles[i].state.NotTried?
        {
          assert candidateFiles[i] in candidateFiles;
        }
        var ok;
        ok, launched := LaunchLoads(launchCount, candidateFiles);
        if !ok {
          return Some(Finished(StepFailureRetry(StairwayExecution), false)), launched;
        }
        running := running + launchCount;
      }
      var w := WaitForAny(scaledConcurrentFiles, running);
      match w {
        case Woke => r := None;
        case WaitStopped(e) => r := Some(Finished(StepThrew(e), false));
        case WaitTraceEnded => r := Some(Unfinished);
      }
    }

    /** doStep: reset orphans, then loop: reconcile, stop when nothing is
        running and nothing is left to launch, drain and stop once too many
        loads have failed, otherwise launch up to the budget of
        podCount * LOAD_CONCURRENT_FILES running loads and wait for one to
        finish. A failed submission ends the step with FAILURE_RETRY; a
        corrupt flight state is thrown out of the step. */
    method DoStep() returns (r: DriverOutcome, ghost lastPass: Observed)
      requires Valid()
      modifies ledger, env`nextFlightId, env`flights, env`submitted, env`podCount, env`queueAccepts, env`ticks
      ensures Valid()
      ensures r == Finished(StepSuccess, false) ==>
        && Count(ledger.rows, RunningState) == 0
        && (Count(ledger.rows, NotTriedState) == 0 || env.podCount * env.concurrentFiles <= 0)
      ensures r.Finished? && r.drained ==>
        && r.result == StepSuccess
        && maxFailedFileLoads != -1 && Count(ledger.rows, FailedState) > maxFailedFileLoads
        && Count(ledger.rows, RunningState) == 0
      ensures r.Finished? && r.result == StepSuccess ==> NoOrphans(ledger.rows, env.flights)
      ensures r.Finished? && r.result.StepFailureRetry? ==>
        r.result.error == StairwayExecution && HasOrphan(ledger.rows, env.flights)
      ensures r.Finished? && r.result.StepThrew? ==> r.result.error.FileSystemCorrupt? || r.result.error.CorruptMetadata?
      ensures r.Unfinished? ==> env.ticks == []
      // the pass of the load loop that ends the step, from what the driver
      // observed at its start; `lastPass` is that observation, a witness
      // whose only tie to the state on entry is that checkForOrphans has
      // left no orphan in it
      ensures NoOrphans(lastPass.rows, lastPass.flights)
      ensures TurnRel(lastPass, Observe(), Some(r), env.concurrentFiles)
    {
      CheckForOrphans();
      while true
        invariant Valid() && NoOrphans(ledger.rows, env.flights)
        decreases Pending(ledger.rows)
      {
        lastPass := Observe();
        var turn := LoadLoopTurn();
        if turn.Some? {
          r := turn.value;
          return;
        }
      }
    }
  }
}
