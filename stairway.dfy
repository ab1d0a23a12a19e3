/** The vocabulary of the durable workflow engine (Stairway) that the steps
    use: flight ids, flight statuses and state, and the result a step
    returns. The engine itself is not part of this model. */
module Stairway {
  import opened Common

  type FlightId = nat

  /** The statuses the engine reports. `Unrecognized` stands for any status
      value the driver's switch has no case for. */
  datatype FlightStatus =
    | Running | Waiting | Ready | Queued
    | Success | Error | Fatal
    | Unrecognized(name: string)

  /** A flight's result map, as far as the driver reads it. */
  datatype ResultMap = ResultMap(fileId: Option<FileId>, fileInfo: Option<FileInfo>)

  /** What `getFlightState` returns: the status, the exception of a failed
      flight if any, and the result map if any. */
  datatype FlightState = FlightState(
    status: FlightStatus,
    exception: Option<string>,
    resultMap: Option<ResultMap>)

  /** The exceptions the modelled steps raise or catch. */
  datatype StepError =
    | DatabaseOperation
    | StairwayExecution
    | FlightNotFound(flightId: FlightId)
    | FileSystemCorrupt(message: string)
    | CorruptMetadata(message: string)
    | FileSystemAbortTransaction
    | FileAlreadyExists(path: string)
    | BucketLock
    /** A failure of the directory store that the step does not catch. */
    | DirectoryStoreFailure(path: string)

  /** STEP_RESULT_SUCCESS, STEP_RESULT_FAILURE_RETRY, or an exception thrown
      out of the step (which the engine turns into a failure of the flight). */
  datatype StepResult =
    | StepSuccess
    | StepFailureRetry(error: StepError)
    | StepThrew(error: StepError)
}
