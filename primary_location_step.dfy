/** IngestFilePrimaryDataLocationStep: picks the bucket a file is copied
    into, unless an earlier run of the load already completed the file. The
    resource service is an oracle: the bucket it answers with, or a
    BucketLockException, is given to the step. */
module PrimaryLocationStep {
  import opened Common
  import opened Stairway
  import opened WorkingMaps

  /** One call of the resource service: the dataset name, the billing
      profile and the flight id it was made with. */
  datatype BucketCall = BucketCall(datasetName: string, profile: Option<BillingProfile>, flightId: FlightId)

  /** The resource service as far as the step uses it: the buckets it has
      created and the calls it has received. It never deletes a bucket. */
  class ResourceService {
    var buckets: set<string>
    var bucketRequests: seq<BucketCall>
    var metadataUpdates: seq<BucketCall>

    constructor (buckets0: set<string>)
      ensures buckets == buckets0 && bucketRequests == [] && metadataUpdates == []
    {
      buckets := buckets0;
      bucketRequests := [];
      metadataUpdates := [];
    }

    /** getOrCreateBucketForFile: `answer` is the bucket the service finds or
        creates, `None` standing for BucketLockException. */
    method GetOrCreateBucketForFile(call: BucketCall, answer: Option<Bucket>) returns (r: Result<Bucket, StepError>)
      modifies this`buckets, this`bucketRequests
      ensures bucketRequests == old(bucketRequests) + [call]
      ensures answer.None? ==> r == Err(BucketLock) && buckets == old(buckets)
      ensures answer.Some? ==> r == Ok(answer.value) && buckets == old(buckets) + {answer.value.name}
    {
      bucketRequests := bucketRequests + [call];
      if answer.None? {
        return Err(BucketLock);
      }
      buckets := buckets + {answer.value.name};
      r := Ok(answer.value);
    }

    /** updateBucketMetadata: recorded; no bucket is created or deleted. */
    method UpdateBucketMetadata(call: BucketCall)
      modifies this`metadataUpdates
      ensures metadataUpdates == old(metadataUpdates) + [call]
    {
      metadataUpdates := metadataUpdates + [call];
    }
  }

  class IngestFilePrimaryDataLocationStep {
    const resourceService: ResourceService
    const datasetName: string

    constructor (resourceService: ResourceService, datasetName: string)
      ensures this.resourceService == resourceService && this.datasetName == datasetName
    {
      this.resourceService := resourceService;
      this.datasetName := datasetName;
    }

    /** The call the step makes of the resource service in flight `flightId`. */
    function CallFor(work: WorkingMap, flightId: FlightId): BucketCall
      reads work`profileModel
    {
      BucketCall(datasetName, work.profileModel, flightId)
    }

    /** doStep: with LOAD_COMPLETED true nothing is asked and nothing is
        written; otherwise (LOAD_COMPLETED false or missing) the bucket for
        the dataset, PROFILE_MODEL and this flight is stored in BUCKET_INFO,
        and a BucketLockException asks for a retry with BUCKET_INFO left as
        it was. */
    method DoStep(work: WorkingMap, flightId: FlightId, answer: Option<Bucket>) returns (r: StepResult)
      modifies work`bucketInfo, resourceService`buckets, resourceService`bucketRequests
      ensures work.Completed() ==>
        && r == StepSuccess && work.bucketInfo == old(work.bucketInfo)
        && resourceService.bucketRequests == old(resourceService.bucketRequests)
        && resourceService.buckets == old(resourceService.buckets)
      ensures !work.Completed() ==>
        resourceService.bucketRequests == old(resourceService.bucketRequests) + [CallFor(work, flightId)]
      ensures !work.Completed() ==>
        resourceService.buckets == old(resourceService.buckets) + (if answer.Some? then {answer.value.name} else {})
      ensures !work.Completed() && answer.None? ==>
        r == StepFailureRetry(BucketLock) && work.bucketInfo == old(work.bucketInfo)
      ensures !work.Completed() && answer.Some? ==>
        r == StepSuccess && work.bucketInfo == answer
      ensures r == StepSuccess || r == StepFailureRetry(BucketLock)
    {
      var loadComplete := work.loadCompleted;
      if loadComplete.None? || !loadComplete.value {
        var billingProfile := work.profileModel;
        var bucketForFile := resourceService.GetOrCreateBucketForFile(BucketCall(datasetName, billingProfile, flightId), answer);
        if bucketForFile.Err? {
          return StepFailureRetry(bucketForFile.error);
        }
        work.bucketInfo := Some(bucketForFile.value);
      }
      r := StepSuccess;
    }

    /** undoStep: updates the bucket metadata, whatever LOAD_COMPLETED says,
        deletes no bucket, and succeeds. */
    method UndoStep(work: WorkingMap, flightId: FlightId) returns (r: StepResult)
      modifies resourceService`metadataUpdates
      ensures r == StepSuccess
      ensures resourceService.metadataUpdates == old(resourceService.metadataUpdates) + [CallFor(work, flightId)]
    {
      var billingProfile := work.profileModel;
      resourceService.UpdateBucketMetadata(BucketCall(datasetName, billingProfile, flightId));
      r := StepSuccess;
    }
  }
}
