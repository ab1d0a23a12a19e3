/** The bulk-load ledger (the load_file table kept by LoadService): one row
    per file of a load, keyed by its target path, with the row's state. The
    service's implementation is not part of this model; its queries are
    modelled as functions of the rows and its updates as methods that
    rewrite the row with the given target path. */
module Loads {
  import opened Common
  import opened Stairway

  /** The state of one row, with the columns that belong to that state. */
  datatype LoadState =
    | NotTried
    | Running(flightId: FlightId)
    | Succeeded(fileId: Option<FileId>, fileInfo: Option<FileInfo>)
    | Failed(error: string)
  {
    function Kind(): BulkLoadFileState {
      match this
      case NotTried => NotTriedState
      case Running(_) => RunningState
      case Succeeded(_, _) => SucceededState
      case Failed(_) => FailedState
    }
  }

  /** BulkLoadFileState: the state column alone. */
  datatype BulkLoadFileState = NotTriedState | RunningState | SucceededState | FailedState

  datatype LoadFile = LoadFile(
    sourcePath: string,
    targetPath: string,
    mimeType: string,
    description: string,
    state: LoadState)

  /** What findCandidates returns: the RUNNING rows, up to a given number of
      NOT_TRIED rows, and the number of FAILED rows. */
  datatype LoadCandidates = LoadCandidates(
    runningLoads: seq<LoadFile>,
    candidateFiles: seq<LoadFile>,
    failedLoads: int)

  /** The target path is the row's key. */
  predicate DistinctPaths(rows: seq<LoadFile>) {
    forall i, j :: 0 <= i < j < |rows| ==> rows[i].targetPath != rows[j].targetPath
  }

  /** The number of rows in state `k`. */
  function Count(rows: seq<LoadFile>, k: BulkLoadFileState): (n: nat)
    ensures n <= |rows|
  {
    if rows == [] then 0
    else (if rows[0].state.Kind() == k then 1 else 0) + Count(rows[1..], k)
  }

  /** Rows still to be finished: NOT_TRIED or RUNNING. */
  function Pending(rows: seq<LoadFile>): nat {
    Count(rows, NotTriedState) + Count(rows, RunningState)
  }

  /** findRunningLoads: the RUNNING rows, in table order. */
  function RunningLoads(rows: seq<LoadFile>): (r: seq<LoadFile>)
    ensures |r| == Count(rows, RunningState)
    ensures forall x :: x in r <==> x in rows && x.state.Running?
  {
    if rows == [] then []
    else if rows[0].state.Running? then [rows[0]] + RunningLoads(rows[1..])
    else RunningLoads(rows[1..])
  }

  /** The NOT_TRIED rows, in table order. */
  function NotTriedLoads(rows: seq<LoadFile>): (r: seq<LoadFile>)
    ensures |r| == Count(rows, NotTriedState)
    ensures forall x :: x in r <==> x in rows && x.state.NotTried?
  {
    if rows == [] then []
    else if rows[0].state.NotTried? then [rows[0]] + NotTriedLoads(rows[1..])
    else NotTriedLoads(rows[1..])
  }

  /** The first n NOT_TRIED rows, in ledger order (none when n <= 0). */
  function FirstCandidates(rows: seq<LoadFile>, n: int): seq<LoadFile> {
    var notTried := NotTriedLoads(rows);
    if n <= 0 then [] else if n < |notTried| then notTried[..n] else notTried
  }

  /** findCandidates(n): the first n NOT_TRIED rows (none when n <= 0). */
  function FindCandidates(rows: seq<LoadFile>, n: int): (c: LoadCandidates)
    ensures c.runningLoads == RunningLoads(rows)
    ensures c.failedLoads == Count(rows, FailedState)
    ensures |c.candidateFiles| == (if n <= 0 then 0 else if n < Count(rows, NotTriedState) then n else Count(rows, NotTriedState))
    ensures forall x :: x in c.candidateFiles ==> x in rows && x.state.NotTried?
    ensures DistinctPaths(rows) ==> DistinctPaths(c.candidateFiles)
  {
    DistinctNotTried(rows);
    LoadCandidates(RunningLoads(rows), FirstCandidates(rows, n), Count(rows, FailedState))
  }

  /** The rows after the row with target path `path` is put in state `st`. */
  function SetState(rows: seq<LoadFile>, path: string, st: LoadState): (r: seq<LoadFile>)
    ensures |r| == |rows|
    ensures forall i :: 0 <= i < |rows| ==> r[i] == if rows[i].targetPath == path then rows[i].(state := st) else rows[i]
  {
    seq(|rows|, i requires 0 <= i < |rows| => if rows[i].targetPath == path then rows[i].(state := st) else rows[i])
  }

  /** Putting the row with key `rows[j].targetPath` into state `st` moves
      exactly one row from its old state to the state of `st`. */
  lemma {:induction false} CountSetState(rows: seq<LoadFile>, j: nat, st: LoadState, k: BulkLoadFileState)
    requires DistinctPaths(rows) && j < |rows|
    ensures Count(SetState(rows, rows[j].targetPath, st), k)
         == Count(rows, k) - (if rows[j].state.Kind() == k then 1 else 0) + (if st.Kind() == k then 1 else 0)
  {
    var p := rows[j].targetPath;
    var r := SetState(rows, p, st);
    assert r[1..] == SetState(rows[1..], p, st);
    if j == 0 {
      assert SetState(rows[1..], p, st) == rows[1..];
    } else {
      CountSetState(rows[1..], j - 1, st, k);
    }
  }

  /** Subsequences of a keyed table are keyed too. */
  lemma {:induction false} DistinctNotTried(rows: seq<LoadFile>)
    ensures DistinctPaths(rows) ==> DistinctPaths(NotTriedLoads(rows))
  {
    if rows != [] && DistinctPaths(rows) {
      DistinctNotTried(rows[1..]);
      var rest := NotTriedLoads(rows[1..]);
      if rows[0].state.NotTried? {
        forall x | x in rest ensures x.targetPath != rows[0].targetPath {
          var i :| 1 <= i < |rows| && rows[i] == x;
        }
      }
    }
  }

  /** `row` after the write `st`, if there is one. */
  function Updated(row: LoadFile, st: Option<LoadState>): LoadFile {
    if st.Some? then row.(state := st.value) else row
  }

  /** The table after the write `st` into the row keyed by `x`, if there is one. */
  function Write(rows: seq<LoadFile>, x: LoadFile, st: Option<LoadState>): seq<LoadFile> {
    if st.Some? then SetState(rows, x.targetPath, st.value) else rows
  }

  /** The ledger after each of the first `k` loads of `loads` in turn has
      been given the state `update` writes for it, if any. */
  function ApplyEach(rows: seq<LoadFile>, loads: seq<LoadFile>, k: nat, update: LoadFile -> Option<LoadState>): seq<LoadFile>
    requires k <= |loads|
  {
    if k == 0 then rows
    else Write(ApplyEach(rows, loads, k - 1, update), loads[k - 1], update(loads[k - 1]))
  }

  /** The keys of the first `k` loads. */
  function PathsUpTo(loads: seq<LoadFile>, k: nat): set<string>
    requires k <= |loads|
  {
    set i | 0 <= i < k :: loads[i].targetPath
  }

  /** Updating loads taken from a keyed table one at a time updates each of
      their rows once and leaves every other row alone. */
  lemma {:induction false} ApplyEachPointwise(rows: seq<LoadFile>, loads: seq<LoadFile>, k: nat, update: LoadFile -> Option<LoadState>)
    requires DistinctPaths(rows) && k <= |loads|
    requires forall x :: x in loads ==> x in rows
    ensures |ApplyEach(rows, loads, k, update)| == |rows|
    ensures forall j :: 0 <= j < |rows| ==>
      ApplyEach(rows, loads, k, update)[j] == (if rows[j].targetPath in PathsUpTo(loads, k) then Updated(rows[j], update(rows[j])) else rows[j])
  {
    if k > 0 {
      ApplyEachPointwise(rows, loads, k - 1, update);
      var x := loads[k - 1];
      assert x in loads;
      var j0 :| 0 <= j0 < |rows| && rows[j0] == x;
      assert PathsUpTo(loads, k) == PathsUpTo(loads, k - 1) + {x.targetPath};
      forall j | 0 <= j < |rows| && j != j0
        ensures rows[j].targetPath != x.targetPath
      {
        if j < j0 {
          assert rows[j].targetPath != rows[j0].targetPath;
        } else {
          assert rows[j0].targetPath != rows[j].targetPath;
        }
      }
    }
  }

  /** A pass over all RUNNING rows with an update that writes nothing for
      any other row updates the whole table row by row. */
  lemma ApplyEachRunning(rows: seq<LoadFile>, update: LoadFile -> Option<LoadState>)
    requires DistinctPaths(rows)
    requires forall j :: 0 <= j < |rows| && !rows[j].state.Running? ==> update(rows[j]).None?
    ensures var after := ApplyEach(rows, RunningLoads(rows), |RunningLoads(rows)|, update);
      && |after| == |rows|
      && forall j :: 0 <= j < |rows| ==> after[j] == Updated(rows[j], update(rows[j]))
  {
    var loads := RunningLoads(rows);
    ApplyEachPointwise(rows, loads, |loads|, update);
    forall j | 0 <= j < |rows| && rows[j].state.Running?
      ensures rows[j].targetPath in PathsUpTo(loads, |loads|)
    {
      assert rows[j] in loads;
      var i :| 0 <= i < |loads| && loads[i] == rows[j];
    }
  }

  /** The ledger of one bulk load. */
  class LoadLedger {
    var rows: seq<LoadFile>

    ghost predicate Valid()
      reads this
    {
      DistinctPaths(rows)
    }

    constructor (rows0: seq<LoadFile>)
      requires DistinctPaths(rows0)
      ensures Valid() && rows == rows0
    {
      rows := rows0;
    }

    /** loadService.findRunningLoads. */
    function FindRunningLoads(): seq<LoadFile>
      reads this
    {
      RunningLoads(rows)
    }

    /** loadService.findCandidates. */
    function FindLoadCandidates(n: int): LoadCandidates
      reads this
    {
      FindCandidates(rows, n)
    }

    /** setLoadFileNotTried, setLoadFileRunning, setLoadFileFailed and
        setLoadFileSucceeded: each rewrites the row with the given target
        path and leaves every other row as it was. */
    method SetLoadFileState(path: string, st: LoadState)
      requires Valid()
      modifies this
      ensures Valid()
      ensures rows == SetState(old(rows), path, st)
    {
      rows := SetState(rows, path, st);
      assert forall i :: 0 <= i < |rows| ==> rows[i].targetPath == old(rows)[i].targetPath;
    }
  }
}
